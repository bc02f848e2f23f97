/** ObjectControllerServer.cs: a script that controls the first child of its own
    object through movement commands served over HTTP. */
module ObjectControllerServer {
  import opened Common
  import opened MovementCommands

  class ObjectControllerServer {
    /** The object that movement commands move. */
    var selectedObject: Option<Handle>
    /** The direction set by the last command and consumed by the next tick. */
    var movementDirection: Vec3
    /** Every per-tick `Translate` of the selected object, with its direction, in order. */
    var translations: seq<(Handle, Vec3)>
    var serverStarted: bool

    constructor ()
      ensures selectedObject == None && movementDirection == Zero
      ensures translations == [] && !serverStarted
    {
      selectedObject := None;
      movementDirection := Zero;
      translations := [];
      serverStarted := false;
    }

    /** `Start`: select the first child, if any; with no selected object, return
        before starting the server. */
    method Start(children: seq<Handle>)
      modifies this`selectedObject, this`serverStarted
      ensures selectedObject == if children != [] then Some(children[0]) else old(selectedObject)
      ensures serverStarted == (old(serverStarted) || selectedObject.Some?)
    {
      if |children| > 0 {
        selectedObject := Some(children[0]);
      }
      if selectedObject.None? {
        return;
      }
      serverStarted := true;
    }

    /** `HandleRequest`: normalise the URL, apply the `switch`, and reply. */
    method HandleRequest(rawUrl: Option<string>) returns (response: string)
      modifies this`movementDirection
      ensures movementDirection == NextDirection(old(movementDirection), NormalizeCommand(rawUrl))
      ensures response == ResponseText(NormalizeCommand(rawUrl))
    {
      var command := NormalizeCommand(rawUrl);
      match command {
        case Some("left") => movementDirection := Left;
        case Some("right") => movementDirection := Right;
        case Some("up") => movementDirection := Up;
        case Some("down") => movementDirection := Down;
        case _ =>
      }
      response := ResponseText(command);
    }

    /** `Update`: move the selected object by the pending direction (scaled by
        speed and frame time), then reset the direction to zero. */
    method Update()
      modifies this`translations, this`movementDirection
      ensures movementDirection == Zero
      ensures translations == old(translations) +
        (if selectedObject.Some? then [(selectedObject.value, old(movementDirection))] else [])
    {
      if selectedObject.Some? {
        translations := translations + [(selectedObject.value, movementDirection)];
      }
      movementDirection := Zero;
    }
  }

  /** A command followed by a tick: the object moves once in the command's
      direction (or the pending one, for an unknown command) and nothing is
      left pending for the next tick. */
  method CommandThenTick(server: ObjectControllerServer, rawUrl: Option<string>) returns (response: string)
    requires server.selectedObject.Some?
    modifies server
    ensures server.movementDirection == Zero && server.selectedObject == old(server.selectedObject)
    ensures server.translations == old(server.translations) +
      [(old(server.selectedObject).value, NextDirection(old(server.movementDirection), NormalizeCommand(rawUrl)))]
  {
    response := server.HandleRequest(rawUrl);
    server.Update();
  }
}
