/** Value types shared by the scene scripts: nullable references, scene-object
    handles and the integer vectors the movement code uses. */
module Common {

  /** A C# reference that may be null. */
  datatype Option<+T> = None | Some(value: T)

  /** An opaque scene object (a Unity GameObject), known only by its identity. */
  datatype Handle = Handle(instance: nat)

  /** A Unity Vector3 restricted to the integer values the scripts use:
      the unit directions, zero and the layout offsets. */
  datatype Vec3 = Vec3(x: int, y: int, z: int)
  {
    function Plus(other: Vec3): Vec3 {
      Vec3(x + other.x, y + other.y, z + other.z)
    }
  }

  const Zero: Vec3 := Vec3(0, 0, 0)
  const Left: Vec3 := Vec3(-1, 0, 0)
  const Right: Vec3 := Vec3(1, 0, 0)
  const Up: Vec3 := Vec3(0, 1, 0)
  const Down: Vec3 := Vec3(0, -1, 0)

  /** The elements of a list of possibly-null references that are not null, in order. */
  function NonNull<T(!new)>(s: seq<Option<T>>): (r: seq<T>)
    ensures |r| <= |s|
    ensures forall k :: 0 <= k < |r| ==> Some(r[k]) in s
  {
    if s == [] then []
    else if s[0].Some? then [s[0].value] + NonNull(s[1..])
    else NonNull(s[1..])
  }

  /** Every non-null value is kept as often as it occurs, and nothing else. */
  lemma {:induction false} NonNullCounts<T(!new)>(s: seq<Option<T>>)
    ensures forall x :: multiset(NonNull(s))[x] == multiset(s)[Some(x)]
  {
    if s != [] {
      NonNullCounts(s[1..]);
      assert s == [s[0]] + s[1..];
    }
  }

  /** Dropping nulls keeps the order: filtering a concatenation is concatenating
      the filtered parts. */
  lemma {:induction false} NonNullAppend<T(!new)>(s: seq<Option<T>>, t: seq<Option<T>>)
    ensures NonNull(s + t) == NonNull(s) + NonNull(t)
  {
    if s != [] {
      assert (s + t)[1..] == s[1..] + t;
      NonNullAppend(s[1..], t);
    } else {
      assert s + t == t;
    }
  }

  predicate NoDuplicates<T(==)>(s: seq<T>) {
    forall i, j :: 0 <= i < j < |s| ==> s[i] != s[j]
  }
}
