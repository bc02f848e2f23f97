/** LoadModelsController.cs: the scene mirror. It keeps the models fetched from
    the catalog server as children of its own object, remembers each model's
    server id, selects a model by clicking it, edits the selected model from the
    keyboard, and pushes the edited transform back to the server. Network and
    asset loading are inputs (the fetched list, one load result per visible
    descriptor); geometry is abstract (edits are recorded, not computed). */
module LoadModelsController {
  import opened Common
  import opened UnityMatrix
  import opened ModelTransforms

  const ServerUrl: string := "http://127.0.0.1:8000"
  const SceneId: string := "fbb72e89-0f35-4418-aa62-d5a99550732a"

  /** A descriptor as the catalog server sends it. */
  datatype ModelInfo = ModelInfo(
    id: string, name: string, description: string, lastUpdated: string,
    thumbnail: string, modelPath: string, transform: MatrixData, hidden: bool)

  /** `modelList.Where(model => !model.hidden)`, in order. */
  function Visible(models: seq<ModelInfo>): (r: seq<ModelInfo>)
    ensures |r| <= |models|
    ensures forall m :: m in r <==> m in models && !m.hidden
  {
    if models == [] then []
    else if !models[0].hidden then [models[0]] + Visible(models[1..])
    else Visible(models[1..])
  }

  /** Every visible descriptor is kept as often as it occurs, and no hidden one. */
  lemma {:induction false} VisibleCounts(models: seq<ModelInfo>)
    ensures forall m :: multiset(Visible(models))[m] == if m.hidden then 0 else multiset(models)[m]
  {
    if models != [] {
      VisibleCounts(models[1..]);
      assert models == [models[0]] + models[1..];
    }
  }

  /** The filter keeps the order: filtering a concatenation is concatenating the
      filtered parts. */
  lemma {:induction false} VisibleAppend(models: seq<ModelInfo>, more: seq<ModelInfo>)
    ensures Visible(models + more) == Visible(models) + Visible(more)
  {
    if models != [] {
      assert (models + more)[1..] == models[1..] + more;
      VisibleAppend(models[1..], more);
    } else {
      assert models + more == more;
    }
  }

  /** The descriptors a refresh goes on to load, or None where it returns early:
      the fetch failed (null), the list is empty, or every model is hidden. */
  function RefreshPlan(fetched: Option<seq<ModelInfo>>): Option<seq<ModelInfo>>
  {
    if fetched.None? || |fetched.value| == 0 then None
    else if |Visible(fetched.value)| == 0 then None
    else Some(Visible(fetched.value))
  }

  /** A refresh goes ahead exactly when the fetch returned at least one model
      that is not hidden, and then loads exactly the visible ones. */
  lemma RefreshGuards(fetched: Option<seq<ModelInfo>>)
    ensures RefreshPlan(fetched).None? <==>
      fetched.None? || forall m :: m in fetched.value ==> m.hidden
    ensures RefreshPlan(fetched).Some? ==> RefreshPlan(fetched).value == Visible(fetched.value)
  {
    if fetched.Some? && |Visible(fetched.value)| == 0 {
      forall m | m in fetched.value ensures m.hidden {
        assert m !in Visible(fetched.value);
      }
    }
    if fetched.Some? && |Visible(fetched.value)| > 0 {
      assert Visible(fetched.value)[0] in Visible(fetched.value);
    }
  }

  /** `Task.WhenAll` of the loads: each visible descriptor with its load result. */
  function Pair(loaded: seq<Option<Handle>>, visible: seq<ModelInfo>): (r: seq<(Option<Handle>, ModelInfo)>)
    requires |loaded| == |visible|
    ensures |r| == |loaded| && forall k :: 0 <= k < |r| ==> r[k] == (loaded[k], visible[k])
  {
    seq(|loaded|, k requires 0 <= k < |loaded| => (loaded[k], visible[k]))
  }

  /** The handles the add loop appends to `loadedModels`: the non-null results, in order. */
  function AddedHandles(results: seq<(Option<Handle>, ModelInfo)>): seq<Handle>
  {
    if results == [] then []
    else (if results[0].0.Some? then [results[0].0.value] else []) + AddedHandles(results[1..])
  }

  /** The entries the add loop writes into `modelIdLookup`, a later write to the
      same handle replacing an earlier one. */
  function IdMap(results: seq<(Option<Handle>, ModelInfo)>): map<Handle, string>
  {
    if results == [] then map[]
    else (if results[0].0.Some? then map[results[0].0.value := results[0].1.id] else map[]) + IdMap(results[1..])
  }

  /** The matrices the add loop decomposes into each added model's position,
      rotation and scale, in order. */
  function Placements(results: seq<(Option<Handle>, ModelInfo)>): seq<(Handle, Matrix4x4)>
  {
    if results == [] then []
    else
      var head := if results[0].0.Some? then [(results[0].0.value, PlacementMatrix(results[0].1.transform))] else [];
      head + Placements(results[1..])
  }

  /** Each added model, and only it, is placed, in the order of the list. */
  lemma {:induction false} PlacementsFollowList(results: seq<(Option<Handle>, ModelInfo)>)
    ensures |Placements(results)| == |AddedHandles(results)|
    ensures forall k :: 0 <= k < |Placements(results)| ==> Placements(results)[k].0 == AddedHandles(results)[k]
  {
    if results != [] {
      var rest := results[1..];
      PlacementsFollowList(rest);
      var n := if results[0].0.Some? then 1 else 0;
      forall k | n <= k < |Placements(results)|
        ensures Placements(results)[k] == Placements(rest)[k - n]
        ensures AddedHandles(results)[k] == AddedHandles(rest)[k - n]
      {
      }
    }
  }

  /** Each placement uses the transform of the descriptor its model was loaded for. */
  lemma {:induction false} PlacementsFollowDescriptors(results: seq<(Option<Handle>, ModelInfo)>)
    ensures forall k :: 0 <= k < |Placements(results)| ==>
      exists j :: 0 <= j < |results| && results[j].0 == Some(Placements(results)[k].0) &&
                  Placements(results)[k].1 == PlacementMatrix(results[j].1.transform)
  {
    if results != [] {
      var rest := results[1..];
      PlacementsFollowDescriptors(rest);
      var head := if results[0].0.Some? then [(results[0].0.value, PlacementMatrix(results[0].1.transform))] else [];
      assert Placements(results) == head + Placements(rest);
      forall k | 0 <= k < |Placements(results)|
        ensures exists j :: 0 <= j < |results| && results[j].0 == Some(Placements(results)[k].0) &&
                            Placements(results)[k].1 == PlacementMatrix(results[j].1.transform)
      {
        if k < |head| {
          assert Placements(results)[k] == head[0];
          assert results[0].0 == Some(Placements(results)[k].0);
        } else {
          assert Placements(results)[k] == Placements(rest)[k - |head|];
          var j :| 0 <= j < |rest| && rest[j].0 == Some(Placements(rest)[k - |head|].0) &&
                   Placements(rest)[k - |head|].1 == PlacementMatrix(rest[j].1.transform);
          assert results[j + 1] == rest[j];
        }
      }
    } else {
      assert Placements(results) == [];
    }
  }

  /** `ModelInfo.TooString` completes: it reads `transform[i][j]` for every `i`
      and `j` below the row count, so the data must be non-null and every row
      non-null and at least as long as there are rows. */
  predicate Formattable(d: MatrixData) {
    d.Some? && forall i :: 0 <= i < |d.value| ==> d.value[i].Some? && |d.value[i].value| >= |d.value|
  }

  /** Data the placement accepts is always formattable, so only the identity
      fallback is at stake. */
  lemma WellFormedIsFormattable(d: MatrixData)
    requires IsWellFormed(d)
    ensures Formattable(d)
  {
  }

  /** What the add loop as written leaves behind: the list, the lookup, the
      placements, and whether it ran to the end. */
  datatype AddOutcome = AddOutcome(
    list: seq<Handle>, lookup: map<Handle, string>, placed: seq<(Handle, Matrix4x4)>, completed: bool)

  /** The add loop as written: a non-null model is listed and mapped, then its
      descriptor is logged with `TooString`, which throws on data it cannot
      format; the exception ends the refresh before that model is placed. */
  function AddAsWritten(results: seq<(Option<Handle>, ModelInfo)>): AddOutcome
  {
    if results == [] then AddOutcome([], map[], [], true)
    else if results[0].0.None? then AddAsWritten(results[1..])
    else
      var h, info := results[0].0.value, results[0].1;
      if !Formattable(info.transform) then AddOutcome([h], map[h := info.id], [], false)
      else
        var rest := AddAsWritten(results[1..]);
        AddOutcome([h] + rest.list, map[h := info.id] + rest.lookup,
                   [(h, PlacementMatrix(info.transform))] + rest.placed, rest.completed)
  }

  /** Every loaded model's transform can be logged. */
  predicate AllFormattable(results: seq<(Option<Handle>, ModelInfo)>) {
    forall k :: 0 <= k < |results| && results[k].0.Some? ==> Formattable(results[k].1.transform)
  }

  /** When every loaded model's transform can be logged, the loop as written
      does what the model's add loop does. */
  lemma {:induction false} AddAsWrittenWhenFormattable(results: seq<(Option<Handle>, ModelInfo)>)
    requires AllFormattable(results)
    ensures AddAsWritten(results) == AddOutcome(AddedHandles(results), IdMap(results), Placements(results), true)
  {
    if results != [] {
      assert AllFormattable(results[1..]) by {
        forall k | 0 <= k < |results[1..]| && results[1..][k].0.Some?
          ensures Formattable(results[1..][k].1.transform)
        {
          assert results[1..][k] == results[k + 1];
        }
      }
      AddAsWrittenWhenFormattable(results[1..]);
      assert results[0].0.Some? ==> Formattable(results[0].1.transform);
    }
  }

  /** The loop as written completes exactly when every loaded model's transform
      can be logged; otherwise it stops with a prefix of the list and of the
      placements. */
  lemma {:induction false} AddAsWrittenStops(results: seq<(Option<Handle>, ModelInfo)>)
    ensures AddAsWritten(results).completed <==> AllFormattable(results)
    ensures AddAsWritten(results).list <= AddedHandles(results)
    ensures AddAsWritten(results).placed <= Placements(results)
  {
    if results != [] {
      var rest := results[1..];
      AddAsWrittenStops(rest);
      if AllFormattable(results) {
        assert AllFormattable(rest) by {
          forall k | 0 <= k < |rest| && rest[k].0.Some? ensures Formattable(rest[k].1.transform) {
            assert rest[k] == results[k + 1];
          }
        }
      } else if results[0].0.None? || Formattable(results[0].1.transform) {
        var k :| 0 <= k < |results| && results[k].0.Some? && !Formattable(results[k].1.transform);
        assert k > 0;
        assert rest[k - 1] == results[k];
      }
      if AllFormattable(rest) && (results[0].0.None? || Formattable(results[0].1.transform)) {
        forall k | 0 <= k < |results| && results[k].0.Some? ensures Formattable(results[k].1.transform) {
          if k > 0 {
            assert rest[k - 1] == results[k];
          }
        }
      }
    }
  }

  /** With the identity fallback every loaded model is placed, one whose data
      is null or mis-shaped by the identity. */
  lemma {:induction false} BadDataPlacedByIdentity(results: seq<(Option<Handle>, ModelInfo)>, k: nat)
    requires k < |results| && results[k].0.Some? && !IsWellFormed(results[k].1.transform)
    ensures (results[k].0.value, Identity) in Placements(results)
  {
    var rest := results[1..];
    var head := if results[0].0.Some? then [(results[0].0.value, PlacementMatrix(results[0].1.transform))] else [];
    assert Placements(results) == head + Placements(rest);
    if k > 0 {
      assert rest[k - 1] == results[k];
      BadDataPlacedByIdentity(rest, k - 1);
    } else {
      assert head[0] == (results[0].0.value, Identity);
    }
  }

  /** Two loaded models, the first sent without a transform: the loop as written
      lists and maps the first, places neither, and ends the refresh, so the
      second is never tracked; with the identity fallback both are tracked and
      the first is placed with the identity. */
  lemma NullTransformEndsRefresh(h1: Handle, h2: Handle, first: ModelInfo, second: ModelInfo)
    requires first.transform.None? && IsWellFormed(second.transform)
    ensures AddAsWritten([(Some(h1), first), (Some(h2), second)]) == AddOutcome([h1], map[h1 := first.id], [], false)
    ensures AddedHandles([(Some(h1), first), (Some(h2), second)]) == [h1, h2]
    ensures Placements([(Some(h1), first), (Some(h2), second)]) ==
      [(h1, Identity), (h2, PlacementMatrix(second.transform))]
  {
    var results := [(Some(h1), first), (Some(h2), second)];
    var last := [(Some(h2), second)];
    assert results[1..] == last && last[1..] == [];
    AddedAndPlacedOne(h1, first, last);
    AddedAndPlacedOne(h2, second, []);
  }

  /** A loaded model in front of further results is listed and placed first. */
  lemma AddedAndPlacedOne(h: Handle, info: ModelInfo, rest: seq<(Option<Handle>, ModelInfo)>)
    ensures AddedHandles([(Some(h), info)] + rest) == [h] + AddedHandles(rest)
    ensures Placements([(Some(h), info)] + rest) == [(h, PlacementMatrix(info.transform))] + Placements(rest)
  {
    assert ([(Some(h), info)] + rest)[1..] == rest;
  }

  /** The added handles are the non-null load results, in descriptor order. */
  lemma {:induction false} AddedHandlesAreLoaded(loaded: seq<Option<Handle>>, visible: seq<ModelInfo>)
    requires |loaded| == |visible|
    ensures AddedHandles(Pair(loaded, visible)) == NonNull(loaded)
  {
    if loaded != [] {
      assert Pair(loaded, visible)[1..] == Pair(loaded[1..], visible[1..]);
      AddedHandlesAreLoaded(loaded[1..], visible[1..]);
    }
  }

  /** The lookup's keys are exactly the handles in the list. */
  lemma {:induction false} IdMapKeys(results: seq<(Option<Handle>, ModelInfo)>)
    ensures IdMap(results).Keys == set h | h in AddedHandles(results)
  {
    if results != [] {
      IdMapKeys(results[1..]);
    }
  }

  /** In a list without duplicates the first element does not occur again. */
  lemma HeadNotInTail(h: Handle, tail: seq<Handle>)
    requires NoDuplicates([h] + tail)
    ensures h !in tail
  {
    forall j | 0 <= j < |tail| ensures tail[j] != h {
      assert ([h] + tail)[0] == h && ([h] + tail)[j + 1] == tail[j];
    }
  }

  /** With distinct handles, each loaded handle maps to its own descriptor's id. */
  lemma {:induction false} IdMapIds(results: seq<(Option<Handle>, ModelInfo)>, k: nat)
    requires NoDuplicates(AddedHandles(results))
    requires k < |results| && results[k].0.Some?
    ensures results[k].0.value in IdMap(results) && IdMap(results)[results[k].0.value] == results[k].1.id
  {
    var rest := results[1..];
    var head := if results[0].0.Some? then [results[0].0.value] else [];
    assert AddedHandles(results) == head + AddedHandles(rest);
    assert NoDuplicates(AddedHandles(rest)) by {
      forall i, j | 0 <= i < j < |AddedHandles(rest)|
        ensures AddedHandles(rest)[i] != AddedHandles(rest)[j]
      {
        assert AddedHandles(rest)[i] == AddedHandles(results)[i + |head|];
        assert AddedHandles(rest)[j] == AddedHandles(results)[j + |head|];
      }
    }
    IdMapKeys(rest);
    if k == 0 {
      HeadNotInTail(results[0].0.value, AddedHandles(rest));
    } else {
      IdMapIds(rest, k - 1);
    }
  }

  /** The keyboard keys the controller reacts to. */
  datatype Key = A | D | W | S | Q | E | Z | X

  /** The order in which `HandleKeyboardClick` tests the keys. */
  const KeyOrder: seq<Key> := [A, D, W, S, Q, E, Z, X]

  /** The `else if` chain: the first key pressed this frame, in `KeyOrder`. */
  function FirstPressed(keys: set<Key>): Option<Key>
  {
    if A in keys then Some(A)
    else if D in keys then Some(D)
    else if W in keys then Some(W)
    else if S in keys then Some(S)
    else if Q in keys then Some(Q)
    else if E in keys then Some(E)
    else if Z in keys then Some(Z)
    else if X in keys then Some(X)
    else None
  }

  /** At most one action per call: the pressed key earliest in `KeyOrder`, or
      none when no key is pressed. */
  lemma FirstPressedIsEarliest(keys: set<Key>)
    ensures FirstPressed(keys).None? <==> keys == {}
    ensures FirstPressed(keys).Some? ==>
      exists i :: 0 <= i < |KeyOrder| && KeyOrder[i] == FirstPressed(keys).value &&
        FirstPressed(keys).value in keys && forall j :: 0 <= j < i ==> KeyOrder[j] !in keys
  {
    if FirstPressed(keys).None? {
      forall k | k in keys ensures false {
        match k
        case A => case D => case W => case S =>
        case Q => case E => case Z => case X =>
      }
    }
    match FirstPressed(keys)
    case None =>
    case Some(k) =>
      var i := if k == A then 0 else if k == D then 1 else if k == W then 2 else if k == S then 3
        else if k == Q then 4 else if k == E then 5 else if k == Z then 6 else 7;
      assert KeyOrder[i] == k;
  }

  /** The direction A, D, W and S set; None for the other keys. */
  function MovementOf(key: Key): Option<Vec3> {
    match key
    case A => Some(Left)
    case D => Some(Right)
    case W => Some(Up)
    case S => Some(Down)
    case _ => None
  }

  /** A change to an object's transform, recorded rather than computed. */
  datatype Edit =
    | Translate(target: Handle, direction: Vec3)
      /** `Rotate(0, degrees, 0, Space.World)` */
    | RotateY(target: Handle, degrees: int)
      /** `localScale *= factor` */
    | Scale(target: Handle, factor: real)

  /** The edit Q, E, Z and X make to the selected object; None for the other keys. */
  function EditOf(key: Key, target: Handle): Option<Edit> {
    match key
    case Q => Some(RotateY(target, -90))
    case E => Some(RotateY(target, 90))
    case Z => Some(Scale(target, 2.0))
    case X => Some(Scale(target, 0.5))
    case _ => None
  }

  /** Every key is either a movement key or an editing key, never both. */
  lemma KeysPartition(key: Key, target: Handle)
    ensures MovementOf(key).Some? != EditOf(key, target).Some?
  {
  }

  /** The movement direction after the keyboard step: the first pressed key's
      direction when it is a movement key, otherwise unchanged. */
  function KeyedDirection(keys: set<Key>, current: Vec3): (d: Vec3)
    ensures FirstPressed(keys).Some? && MovementOf(FirstPressed(keys).value).Some? ==>
      d == MovementOf(FirstPressed(keys).value).value
    ensures FirstPressed(keys).None? || MovementOf(FirstPressed(keys).value).None? ==> d == current
  {
    match FirstPressed(keys)
    case Some(key) => if MovementOf(key).Some? then MovementOf(key).value else current
    case None => current
  }

  /** The edit the keyboard step makes to `selection`: one for an editing key
      with an object selected, none otherwise. */
  function KeyEdits(keys: set<Key>, selection: Option<Handle>): (e: seq<Edit>)
    ensures |e| <= 1
    ensures e != [] <==> selection.Some? && FirstPressed(keys).Some? && MovementOf(FirstPressed(keys).value).None?
    ensures e != [] ==> Some(e[0]) == EditOf(FirstPressed(keys).value, selection.value)
  {
    match (FirstPressed(keys), selection)
    case (Some(key), Some(target)) => OptionToSeq(EditOf(key, target))
    case _ => []
  }

  /** At most one action per call: a frame's keys either edit the selection or
      change the movement direction, never both. */
  lemma OneAction(keys: set<Key>, selection: Option<Handle>, current: Vec3)
    ensures KeyEdits(keys, selection) == [] || KeyedDirection(keys, current) == current
  {
    if selection.Some? && FirstPressed(keys).Some? {
      KeysPartition(FirstPressed(keys).value, selection.value);
    }
  }

  /** Whether the keyboard step reaches its push: some key acted, and an editing
      key had an object to act on. */
  predicate KeyPushes(keys: set<Key>, selection: Option<Handle>) {
    FirstPressed(keys).Some? && (MovementOf(FirstPressed(keys).value).Some? || selection.Some?)
  }

  const ModelsPath: string := "/api/models/"
  const TransformSuffix: string := "/transform"

  /** `$"{serverUrl}/api/models/{modelId}/transform"`. */
  function TransformUrl(modelId: string): (url: string)
    ensures |url| == |ServerUrl + ModelsPath| + |modelId| + |TransformSuffix|
  {
    ServerUrl + ModelsPath + modelId + TransformSuffix
  }

  /** The model id inside a transform URL. */
  function ModelIdOfUrl(url: string): string
    requires |ServerUrl + ModelsPath| + |TransformSuffix| <= |url|
  {
    url[|ServerUrl + ModelsPath|..|url| - |TransformSuffix|]
  }

  /** The transform URL names the server and its endpoint and carries the id intact. */
  lemma {:induction false} TransformUrlRoundTrip(modelId: string)
    ensures TransformUrl(modelId)[..|ServerUrl + ModelsPath|] == ServerUrl + ModelsPath
    ensures ModelIdOfUrl(TransformUrl(modelId)) == modelId
    ensures TransformUrl(modelId)[|TransformUrl(modelId)| - |TransformSuffix|..] == TransformSuffix
  {
    var u := TransformUrl(modelId);
    assert u == (ServerUrl + ModelsPath) + modelId + TransformSuffix;
    assert u[|ServerUrl + ModelsPath|..|u| - |TransformSuffix|] == modelId;
  }

  datatype FieldValue = Text(text: string) | JsonMatrix(rows: seq<seq<real>>)
  datatype FormField = FormField(name: string, value: FieldValue)

  /** A POST of a form to a URL. */
  datatype TransformPost = TransformPost(url: string, form: seq<FormField>)

  /** The POST `UpdateModelTransform` sends for `target`, whose current
      local-to-world matrix is `world`: none for a null target (the lookup throws)
      or an untracked one; otherwise the model's transform URL with the fields
      `transform` (the matrix, row by row) and `scene_id`. */
  function TransformPostFor(lookup: map<Handle, string>, target: Option<Handle>, world: Matrix4x4): (p: Option<TransformPost>)
    ensures p.Some? <==> target.Some? && target.value in lookup
    ensures p.Some? ==> p.value.url == TransformUrl(lookup[target.value])
    ensures p.Some? ==> p.value.form == [FormField("transform", JsonMatrix(MatrixToRows(world))), FormField("scene_id", Text(SceneId))]
  {
    if target.None? || target.value !in lookup then None
    else
      TransformUrlRoundTrip(lookup[target.value]);
      Some(TransformPost(TransformUrl(lookup[target.value]),
        [FormField("transform", JsonMatrix(MatrixToRows(world))), FormField("scene_id", Text(SceneId))]))
  }

  function OptionToSeq<T>(o: Option<T>): seq<T> {
    match o
    case Some(x) => [x]
    case None => []
  }

  /** A scene's parent links; `depth` ranks every object that has a parent above
      that parent, so walking up always ends. */
  datatype Hierarchy = Hierarchy(parent: map<Handle, Handle>, depth: map<Handle, nat>)
  {
    predicate Acyclic() {
      forall h :: h in parent ==> h in depth && parent[h] in depth && depth[parent[h]] < depth[h]
    }

    function Rank(h: Handle): nat {
      if h in depth then depth[h] else 0
    }

    /** The object and its ancestors, nearest first. */
    function AncestorsOrSelf(h: Handle): (chain: seq<Handle>)
      requires Acyclic()
      ensures chain != [] && chain[0] == h
      decreases Rank(h)
    {
      [h] + if h in parent then AncestorsOrSelf(parent[h]) else []
    }
  }

  /** The object selected by clicking `h`: the nearest of `h` and its ancestors
      that is tracked, if any. */
  function NearestTracked(scene: Hierarchy, tracked: map<Handle, string>, h: Handle): Option<Handle>
    requires scene.Acyclic()
    decreases scene.Rank(h)
  {
    if h in tracked then Some(h)
    else if h in scene.parent then NearestTracked(scene, tracked, scene.parent[h])
    else None
  }

  /** No object of `chain` is tracked. */
  predicate NoneTracked(chain: seq<Handle>, tracked: map<Handle, string>) {
    forall k :: 0 <= k < |chain| ==> chain[k] !in tracked
  }

  /** The first tracked object of a chain, read front to back. */
  function FirstTracked(chain: seq<Handle>, tracked: map<Handle, string>): Option<Handle>
  {
    if chain == [] then None
    else if chain[0] in tracked then Some(chain[0])
    else FirstTracked(chain[1..], tracked)
  }

  /** Walking up parent links visits exactly the ancestor chain, nearest first. */
  lemma {:induction false} NearestTrackedWalksChain(scene: Hierarchy, tracked: map<Handle, string>, h: Handle)
    requires scene.Acyclic()
    ensures NearestTracked(scene, tracked, h) == FirstTracked(scene.AncestorsOrSelf(h), tracked)
    decreases scene.Rank(h)
  {
    var chain := scene.AncestorsOrSelf(h);
    if h !in tracked && h in scene.parent {
      NearestTrackedWalksChain(scene, tracked, scene.parent[h]);
      assert chain[1..] == scene.AncestorsOrSelf(scene.parent[h]);
    }
  }

  /** The search finds none exactly when no object of the chain is tracked, and
      otherwise a tracked object with no tracked object before it. */
  lemma {:induction false} FirstTrackedIsFirst(chain: seq<Handle>, tracked: map<Handle, string>)
    ensures FirstTracked(chain, tracked).None? <==> NoneTracked(chain, tracked)
    ensures FirstTracked(chain, tracked).Some? ==>
      exists i :: 0 <= i < |chain| && chain[i] == FirstTracked(chain, tracked).value &&
        chain[i] in tracked && NoneTracked(chain[..i], tracked)
  {
    if chain != [] && chain[0] !in tracked {
      FirstTrackedIsFirst(chain[1..], tracked);
      if FirstTracked(chain, tracked).Some? {
        var i :| 0 <= i < |chain[1..]| && chain[1..][i] == FirstTracked(chain, tracked).value &&
          chain[1..][i] in tracked && NoneTracked(chain[1..][..i], tracked);
        assert chain[..i + 1] == [chain[0]] + chain[1..][..i];
      }
    } else if chain != [] {
      assert chain[..0] == [];
    }
  }

  /** Clicking selects the FIRST tracked object on the clicked object's ancestor
      chain, and selects nothing exactly when no object on the chain is tracked. */
  lemma NearestTrackedIsFirst(scene: Hierarchy, tracked: map<Handle, string>, h: Handle)
    requires scene.Acyclic()
    ensures NearestTracked(scene, tracked, h).None? <==> NoneTracked(scene.AncestorsOrSelf(h), tracked)
    ensures NearestTracked(scene, tracked, h).Some? ==>
      exists i :: 0 <= i < |scene.AncestorsOrSelf(h)| &&
        scene.AncestorsOrSelf(h)[i] == NearestTracked(scene, tracked, h).value &&
        NearestTracked(scene, tracked, h).value in tracked &&
        NoneTracked(scene.AncestorsOrSelf(h)[..i], tracked)
  {
    NearestTrackedWalksChain(scene, tracked, h);
    FirstTrackedIsFirst(scene.AncestorsOrSelf(h), tracked);
  }

  lemma UpdateThenUnion(m: map<Handle, string>, h: Handle, v: string, r: map<Handle, string>)
    ensures m[h := v] + r == m + (map[h := v] + r)
  {
  }

  /** One step of the add loop, on the accumulated list. */
  lemma ListStep(list: seq<Handle>, rest: seq<(Option<Handle>, ModelInfo)>)
    requires rest != []
    ensures rest[0].0.Some? ==> (list + [rest[0].0.value]) + AddedHandles(rest[1..]) == list + AddedHandles(rest)
    ensures rest[0].0.None? ==> list + AddedHandles(rest[1..]) == list + AddedHandles(rest)
  {
    if rest[0].0.Some? {
      assert AddedHandles(rest) == [rest[0].0.value] + AddedHandles(rest[1..]);
    } else {
      assert AddedHandles(rest) == AddedHandles(rest[1..]);
    }
  }

  /** One step of the add loop, on the accumulated lookup. */
  lemma LookupStep(lookup: map<Handle, string>, rest: seq<(Option<Handle>, ModelInfo)>)
    requires rest != []
    ensures rest[0].0.Some? ==>
      lookup[rest[0].0.value := rest[0].1.id] + IdMap(rest[1..]) == lookup + IdMap(rest)
    ensures rest[0].0.None? ==> lookup + IdMap(rest[1..]) == lookup + IdMap(rest)
  {
    var tail := IdMap(rest[1..]);
    if rest[0].0.Some? {
      var h, id := rest[0].0.value, rest[0].1.id;
      assert IdMap(rest) == map[h := id] + tail;
      UpdateThenUnion(lookup, h, id, tail);
    } else {
      assert IdMap(rest) == map[] + tail;
      assert map[] + tail == tail;
    }
  }

  /** One step of the add loop, on the accumulated placements. */
  lemma PlacedStep(placed: seq<(Handle, Matrix4x4)>, rest: seq<(Option<Handle>, ModelInfo)>)
    requires rest != []
    ensures rest[0].0.Some? ==>
      (placed + [(rest[0].0.value, PlacementMatrix(rest[0].1.transform))]) + Placements(rest[1..]) ==
        placed + Placements(rest)
    ensures rest[0].0.None? ==> placed + Placements(rest[1..]) == placed + Placements(rest)
  {
    if rest[0].0.Some? {
      assert Placements(rest) == [(rest[0].0.value, PlacementMatrix(rest[0].1.transform))] + Placements(rest[1..]);
    } else {
      assert Placements(rest) == Placements(rest[1..]);
    }
  }

  /** After a refresh the list holds the loaded objects and the lookup tracks
      exactly them. */
  lemma RefreshedTracking(loaded: seq<Option<Handle>>, visible: seq<ModelInfo>)
    requires |loaded| == |visible|
    ensures [] + AddedHandles(Pair(loaded, visible)) == NonNull(loaded)
    ensures map[] + IdMap(Pair(loaded, visible)) == IdMap(Pair(loaded, visible))
    ensures IdMap(Pair(loaded, visible)).Keys == set h | h in NonNull(loaded)
  {
    AddedHandlesAreLoaded(loaded, visible);
    IdMapKeys(Pair(loaded, visible));
  }

  class LoadModelsController {
    var loadedModels: seq<Handle>
    var modelIdLookup: map<Handle, string>
    var selectedObject: Option<Handle>
    var movementDirection: Vec3
    /** Every `Destroy` the controller called, in order. */
    var destroyed: seq<Handle>
    /** Every loaded model with the matrix its position, rotation and scale
        were set from, in order. */
    var placements: seq<(Handle, Matrix4x4)>
    /** Every transform change the controller made, in order. */
    var edits: seq<Edit>
    /** Every transform POST sent to the server, in order. */
    var posts: seq<TransformPost>

    /** The lookup tracks exactly the listed models, each once. */
    ghost predicate Valid()
      reads this
    {
      modelIdLookup.Keys == (set h | h in loadedModels) && NoDuplicates(loadedModels)
    }

    constructor ()
      ensures Valid()
      ensures loadedModels == [] && modelIdLookup == map[] && selectedObject == None
      ensures movementDirection == Zero && destroyed == [] && placements == [] && edits == [] && posts == []
    {
      loadedModels := [];
      modelIdLookup := map[];
      selectedObject := None;
      movementDirection := Zero;
      destroyed := [];
      placements := [];
      edits := [];
      posts := [];
    }

    /** `ClearLoadedModels`: destroy every listed model and forget its id, then
        empty the list. Lookup entries of unlisted handles are left alone. */
    method ClearLoadedModels()
      modifies this`loadedModels, this`modelIdLookup, this`destroyed
      ensures loadedModels == []
      ensures modelIdLookup == old(modelIdLookup) - (set h | h in old(loadedModels))
      ensures destroyed == old(destroyed) + old(loadedModels)
      ensures old(Valid()) ==> modelIdLookup == map[] && Valid()
    {
      var i := 0;
      while i < |loadedModels|
        invariant 0 <= i <= |loadedModels| && loadedModels == old(loadedModels)
        invariant modelIdLookup == old(modelIdLookup) - (set h | h in loadedModels[..i])
        invariant destroyed == old(destroyed) + loadedModels[..i]
      {
        var model := loadedModels[i];
        assert loadedModels[..i + 1] == loadedModels[..i] + [model];
        if model in modelIdLookup {
          modelIdLookup := modelIdLookup - {model};
        }
        destroyed := destroyed + [model];
        i := i + 1;
      }
      assert loadedModels[..i] == loadedModels;
      loadedModels := [];
    }

    /** The add loop of `LoadModelsFromServer`: every non-null result is listed
        and mapped to its descriptor's id, in order. */
    method AddLoadedModels(results: seq<(Option<Handle>, ModelInfo)>)
      modifies this`loadedModels, this`modelIdLookup, this`placements
      ensures loadedModels == old(loadedModels) + AddedHandles(results)
      ensures modelIdLookup == old(modelIdLookup) + IdMap(results)
      ensures placements == old(placements) + Placements(results)
    {
      var i := 0;
      while i < |results|
        invariant 0 <= i <= |results|
        invariant loadedModels + AddedHandles(results[i..]) == old(loadedModels) + AddedHandles(results)
        invariant modelIdLookup + IdMap(results[i..]) == old(modelIdLookup) + IdMap(results)
        invariant placements + Placements(results[i..]) == old(placements) + Placements(results)
      {
        var (model, modelInfo) := results[i];
        assert results[i..][1..] == results[i + 1..];
        ListStep(loadedModels, results[i..]);
        LookupStep(modelIdLookup, results[i..]);
        PlacedStep(placements, results[i..]);
        if model.Some? {
          loadedModels := loadedModels + [model.value];
          modelIdLookup := modelIdLookup[model.value := modelInfo.id];
          var matrix := ParseTransform(modelInfo.transform).Transpose();
          placements := placements + [(model.value, matrix)];
        }
        i := i + 1;
      }
      assert results[i..] == [];
    }

    /** `LoadModelsFromServer`. `fetched` is the server's list (None when the
        fetch or its parsing failed) and `loaded` one load result per visible
        descriptor, null where the download or import failed; distinct loads
        give distinct objects. Early returns leave everything untouched;
        otherwise the old models are cleared and the loaded ones tracked. */
    method LoadModelsFromServer(fetched: Option<seq<ModelInfo>>, loaded: seq<Option<Handle>>)
      requires Valid()
      requires RefreshPlan(fetched).Some? ==>
        |loaded| == |RefreshPlan(fetched).value| && NoDuplicates(NonNull(loaded))
      modifies this`loadedModels, this`modelIdLookup, this`destroyed, this`placements
      ensures Valid()
      ensures RefreshPlan(fetched).None? ==>
        && loadedModels == old(loadedModels) && modelIdLookup == old(modelIdLookup)
        && destroyed == old(destroyed) && placements == old(placements)
      ensures RefreshPlan(fetched).Some? ==>
        && destroyed == old(destroyed) + old(loadedModels)
        && loadedModels == NonNull(loaded)
        && modelIdLookup == IdMap(Pair(loaded, RefreshPlan(fetched).value))
        && placements == old(placements) + Placements(Pair(loaded, RefreshPlan(fetched).value))
    {
      if fetched.None? || |fetched.value| == 0 {
        return;
      }
      var visibleModels := Visible(fetched.value);
      if |visibleModels| == 0 {
        return;
      }
      var results := Pair(loaded, visibleModels);
      ClearLoadedModels();
      AddLoadedModels(results);
      RefreshedTracking(loaded, visibleModels);
      assert loadedModels == NonNull(loaded);
      assert modelIdLookup == IdMap(results);
    }

    /** `HandleMouseClick`: on a click that hits an object, select the nearest
        tracked object among it and its ancestors; a miss, no click, or a hit
        on nothing tracked keeps the selection. */
    method HandleMouseClick(mouseDown: bool, hit: Option<Handle>, scene: Hierarchy)
      requires scene.Acyclic()
      modifies this`selectedObject
      ensures selectedObject ==
        if mouseDown && hit.Some? && NearestTracked(scene, modelIdLookup, hit.value).Some?
        then NearestTracked(scene, modelIdLookup, hit.value)
        else old(selectedObject)
    {
      if !mouseDown || hit.None? {
        return;
      }
      var current := hit;
      while current.Some?
        invariant current.Some? ==>
          NearestTracked(scene, modelIdLookup, current.value) == NearestTracked(scene, modelIdLookup, hit.value)
        invariant current.None? ==> NearestTracked(scene, modelIdLookup, hit.value).None?
        invariant selectedObject == old(selectedObject)
        decreases if current.Some? then scene.Rank(current.value) + 1 else 0
      {
        if current.value in modelIdLookup {
          selectedObject := current;
          return;
        }
        current := if current.value in scene.parent then Some(scene.parent[current.value]) else None;
      }
    }

    /** `UpdateModelTransform`: send the target's matrix to its model's transform
        endpoint; send nothing for a null or untracked target. */
    method UpdateModelTransform(target: Option<Handle>, world: Matrix4x4)
      modifies this`posts
      ensures posts == old(posts) + OptionToSeq(TransformPostFor(modelIdLookup, target, world))
    {
      if target.None? || target.value !in modelIdLookup {
        return;
      }
      var modelId := modelIdLookup[target.value];
      var url := ServerUrl + ModelsPath + modelId + TransformSuffix;
      var jsonMatrix := ConvertMatrixToJson(world);
      var form := [FormField("transform", JsonMatrix(jsonMatrix)), FormField("scene_id", Text(SceneId))];
      posts := posts + [TransformPost(url, form)];
    }

    /** `HandleKeyboardClick`: act on the first pressed key only. A, D, W and S
        set the direction; Q, E, Z and X edit the selected object, and with no
        selection fail before anything changes. After an action the selected
        object's transform (then `world`) is pushed. */
    method HandleKeyboardClick(keys: set<Key>, world: Matrix4x4)
      modifies this`movementDirection, this`edits, this`posts
      ensures movementDirection == KeyedDirection(keys, old(movementDirection))
      ensures edits == old(edits) + KeyEdits(keys, selectedObject)
      ensures posts == old(posts) +
        (if KeyPushes(keys, selectedObject) then OptionToSeq(TransformPostFor(modelIdLookup, selectedObject, world)) else [])
    {
      var updated := false;
      if A in keys {
        movementDirection := Left;
        updated := true;
      } else if D in keys {
        movementDirection := Right;
        updated := true;
      } else if W in keys {
        movementDirection := Up;
        updated := true;
      } else if S in keys {
        movementDirection := Down;
        updated := true;
      } else if Q in keys || E in keys || Z in keys || X in keys {
        if selectedObject.None? {
          // NullReferenceException: the async method stops here.
          return;
        }
        var target := selectedObject.value;
        var edit := if Q in keys then RotateY(target, -90)
          else if E in keys then RotateY(target, 90)
          else if Z in keys then Scale(target, 2.0)
          else Scale(target, 0.5);
        edits := edits + [edit];
        updated := true;
      }
      if updated {
        UpdateModelTransform(selectedObject, world);
      }
    }

    /** `Update`, one frame: the click, then the keyboard, then the selected
        object moves by the direction (and, when the direction is not zero, its
        new transform, `moved`, is pushed), and finally the direction is reset:
        a movement lasts one frame. `keyed` is the selected object's matrix
        when the keyboard pushes it. */
    method Update(mouseDown: bool, hit: Option<Handle>, scene: Hierarchy, keys: set<Key>, keyed: Matrix4x4, moved: Matrix4x4)
      requires scene.Acyclic()
      modifies this`selectedObject, this`movementDirection, this`edits, this`posts
      ensures movementDirection == Zero
      ensures selectedObject ==
        if mouseDown && hit.Some? && NearestTracked(scene, modelIdLookup, hit.value).Some?
        then NearestTracked(scene, modelIdLookup, hit.value)
        else old(selectedObject)
      ensures edits == old(edits) + KeyEdits(keys, selectedObject) +
        (if selectedObject.Some? then [Translate(selectedObject.value, KeyedDirection(keys, old(movementDirection)))] else [])
      ensures posts == old(posts) +
        (if KeyPushes(keys, selectedObject) then OptionToSeq(TransformPostFor(modelIdLookup, selectedObject, keyed)) else []) +
        (if selectedObject.Some? && KeyedDirection(keys, old(movementDirection)) != Zero
         then OptionToSeq(TransformPostFor(modelIdLookup, selectedObject, moved)) else [])
    {
      HandleMouseClick(mouseDown, hit, scene);
      HandleKeyboardClick(keys, keyed);
      if selectedObject.Some? {
        edits := edits + [Translate(selectedObject.value, movementDirection)];
        if movementDirection != Zero {
          UpdateModelTransform(selectedObject, moved);
        }
      }
      movementDirection := Zero;
    }

    /** `Start`: refresh, then select the first child of the controller's object
        (`children`, as it stands once the refresh is done), if there is one. */
    method Start(fetched: Option<seq<ModelInfo>>, loaded: seq<Option<Handle>>, children: seq<Handle>)
      requires Valid()
      requires RefreshPlan(fetched).Some? ==>
        |loaded| == |RefreshPlan(fetched).value| && NoDuplicates(NonNull(loaded))
      modifies this`loadedModels, this`modelIdLookup, this`destroyed, this`placements, this`selectedObject
      ensures Valid()
      ensures RefreshPlan(fetched).None? ==>
        && loadedModels == old(loadedModels) && modelIdLookup == old(modelIdLookup)
        && destroyed == old(destroyed) && placements == old(placements)
      ensures RefreshPlan(fetched).Some? ==>
        && destroyed == old(destroyed) + old(loadedModels)
        && loadedModels == NonNull(loaded)
        && modelIdLookup == IdMap(Pair(loaded, RefreshPlan(fetched).value))
        && placements == old(placements) + Placements(Pair(loaded, RefreshPlan(fetched).value))
      ensures selectedObject == if children != [] then Some(children[0]) else old(selectedObject)
    {
      LoadModelsFromServer(fetched, loaded);
      if |children| > 0 {
        selectedObject := Some(children[0]);
      } else {
        return;
      }
    }
  }
}
