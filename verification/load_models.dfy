/** LoadModels.cs: a script that loads every `.glb` file of a folder as a child
    of its own object, lays the models out along the x axis, selects the first
    child and serves movement commands for it. */
module LoadModels {
  import opened Common
  import opened MovementCommands

  /** The gap between neighbouring models along x (`spacing = 2.0f`). */
  const Spacing: int := 2

  /** The positions `LoadAllGLBModels` assigns to the results still to be
      placed once `slot` models have been placed: each non-null model gets the
      current offset, and only non-null models advance it. */
  function Layout(loaded: seq<Option<Handle>>, slot: nat): seq<(Handle, Vec3)>
  {
    if loaded == [] then []
    else if loaded[0].Some? then [(loaded[0].value, Vec3(Spacing * slot, 0, 0))] + Layout(loaded[1..], slot + 1)
    else Layout(loaded[1..], slot)
  }

  /** The k-th non-null model, counted from 0 in file order, is placed at x = 2k;
      null results are skipped and take no slot. */
  lemma {:induction false} LayoutSpacing(loaded: seq<Option<Handle>>, slot: nat)
    ensures |Layout(loaded, slot)| == |NonNull(loaded)|
    ensures forall k :: 0 <= k < |Layout(loaded, slot)| ==>
      Layout(loaded, slot)[k] == (NonNull(loaded)[k], Vec3(2 * (slot + k), 0, 0))
  {
    if loaded != [] {
      if loaded[0].Some? {
        LayoutSpacing(loaded[1..], slot + 1);
      } else {
        LayoutSpacing(loaded[1..], slot);
      }
    }
  }

  class LoadModels {
    /** The object that movement commands move. */
    var selectedObject: Option<Handle>
    /** The direction set by the last command and consumed by the next tick. */
    var movementDirection: Vec3
    /** The children of the script's own object, in order. */
    var children: seq<Handle>
    /** Every `transform.position` assignment of the layout, in order. */
    var placements: seq<(Handle, Vec3)>
    /** Every per-tick `Translate` of the selected object, with its direction, in order. */
    var translations: seq<(Handle, Vec3)>
    var serverStarted: bool

    /** A fresh script on an object that already has `initialChildren`. */
    constructor (initialChildren: seq<Handle>)
      ensures selectedObject == None && movementDirection == Zero
      ensures children == initialChildren && placements == [] && translations == []
      ensures !serverStarted
    {
      selectedObject := None;
      movementDirection := Zero;
      children := initialChildren;
      placements := [];
      translations := [];
      serverStarted := false;
    }

    /** `LoadAllGLBModels`: `glbFiles` is None when the folder does not exist, and
        `loaded` holds one import result per file (null on failure). */
    method LoadAllGLBModels(glbFiles: Option<seq<string>>, loaded: seq<Option<Handle>>)
      requires glbFiles.Some? ==> |loaded| == |glbFiles.value|
      modifies this`children, this`placements
      ensures glbFiles.None? || glbFiles.value == [] ==>
        children == old(children) && placements == old(placements)
      ensures glbFiles.Some? && glbFiles.value != [] ==>
        children == old(children) + NonNull(loaded) && placements == old(placements) + Layout(loaded, 0)
    {
      if glbFiles.None? || |glbFiles.value| == 0 {
        return;
      }
      PlaceLoadedModels(loaded);
    }

    /** The placement loop of `LoadAllGLBModels`: each non-null model is put at
        the running offset, advances the offset by the spacing, and becomes a child. */
    method PlaceLoadedModels(loaded: seq<Option<Handle>>)
      modifies this`children, this`placements
      ensures children == old(children) + NonNull(loaded)
      ensures placements == old(placements) + Layout(loaded, 0)
    {
      var positionOffset := Zero;
      ghost var placed: nat := 0;
      var i := 0;
      while i < |loaded|
        invariant 0 <= i <= |loaded|
        invariant positionOffset == Vec3(Spacing * placed, 0, 0)
        invariant children + NonNull(loaded[i..]) == old(children) + NonNull(loaded)
        invariant placements + Layout(loaded[i..], placed) == old(placements) + Layout(loaded, 0)
      {
        var model := loaded[i];
        assert loaded[i..][1..] == loaded[i + 1..];
        if model.Some? {
          placements := placements + [(model.value, positionOffset)];
          positionOffset := positionOffset.Plus(Vec3(Spacing, 0, 0));
          children := children + [model.value];
          placed := placed + 1;
        }
        i := i + 1;
      }
    }

    /** `Start`: load the models, then select the first child and start the
        server; with no child, return without starting it. */
    method Start(glbFiles: Option<seq<string>>, loaded: seq<Option<Handle>>)
      requires glbFiles.Some? ==> |loaded| == |glbFiles.value|
      modifies this
      ensures children == old(children) + (if glbFiles.Some? && glbFiles.value != [] then NonNull(loaded) else [])
      ensures placements == old(placements) + (if glbFiles.Some? && glbFiles.value != [] then Layout(loaded, 0) else [])
      ensures children != [] ==> selectedObject == Some(children[0]) && serverStarted
      ensures children == [] ==> selectedObject == old(selectedObject) && serverStarted == old(serverStarted)
      ensures movementDirection == old(movementDirection) && translations == old(translations)
    {
      LoadAllGLBModels(glbFiles, loaded);
      if |children| > 0 {
        selectedObject := Some(children[0]);
      } else {
        return;
      }
      serverStarted := true;
    }

    /** `HandleRequest`: normalise the URL, apply the `switch`, and reply. */
    method HandleRequest(rawUrl: Option<string>) returns (response: string)
      modifies this`movementDirection
      ensures movementDirection == NextDirection(old(movementDirection), NormalizeCommand(rawUrl))
      ensures response == ResponseText(NormalizeCommand(rawUrl))
    {
      var command := NormalizeCommand(rawUrl);
      match command {
        case Some("left") => movementDirection := Left;
        case Some("right") => movementDirection := Right;
        case Some("up") => movementDirection := Up;
        case Some("down") => movementDirection := Down;
        case _ =>
      }
      response := ResponseText(command);
    }

    /** `Update`: move the selected object by the pending direction, then reset
        the direction, so a command moves the object on one tick only. */
    method Update()
      modifies this`translations, this`movementDirection
      ensures movementDirection == Zero
      ensures translations == old(translations) +
        (if selectedObject.Some? then [(selectedObject.value, old(movementDirection))] else [])
    {
      if selectedObject.Some? {
        translations := translations + [(selectedObject.value, movementDirection)];
      }
      movementDirection := Zero;
    }
  }
}
