# VR Unity scripts — a Dafny model

This project models the bookkeeping, routing and string handling of four Unity
scripts that mirror a model catalog into a VR scene. Geometry is kept abstract
throughout.

- **`LoadModelsController`** (`load_models_controller.dfy`, `model_transforms.dfy`,
  `unity_matrix.dfy`) is the scene mirror.
  - A refresh fetches the catalog, drops hidden models, clears the old models and
    tracks the loaded ones. The controller keeps a list of loaded objects and a
    dictionary from object to server id.
  - A click selects the nearest tracked ancestor of the hit object.
  - Keys move or edit the selection, and each edit pushes the selection's matrix
    back to the server as a form POST.
  - The 4x4 transform arrays are validated, transposed and copied back exactly.
- **`VRServer`** (`vr_server.dfy`) is an HTTP front end.
  - `/notify` requests are queued for the main thread. Each one starts a
    refresh when the scene has a controller, and is answered 200 either way.
  - Every other request gets a CORS preflight answer or a JSON 404, with
    fixed statuses, headers and bodies.
- **`LoadModels`** (`load_models.dfy`) and **`ObjectControllerServer`**
  (`object_controller_server.dfy`) are two movement-command servers.
  - Both share the command protocol in `movement_commands.dfy`: the raw URL
    with `/` trimmed from both ends, lowercased, then mapped to a unit direction.
    The reply is `Command '<command>' executed!` for every command.
  - A direction lasts exactly one tick.
  - `LoadModels` also lays out the models it imports 2 units apart along x.

**How the source's parts are represented:**

- **Scene objects** are opaque `Handle`s, and C# `null` is `Option`.
- **Vectors** are integer triples.
- **Matrix entries** are reals that are only copied, never computed on.
- **Stateful scripts** are classes whose methods update fields, as the source
  does. The effects the source has on the Unity scene are recorded in fields
  that only grow:
  - the destroyed objects;
  - the placements;
  - the transform edits;
  - the translations;
  - the POSTs sent;
  - the responses written.
- **Inputs from outside** come in as method parameters:
  - the network, the asset importer and the listener thread;
  - what `Physics.Raycast`, `Input` and `FindObjectOfType` return;
  - the objects' world matrices.

## Model

| member | source | states |
|---|---|---|
| `Common.NonNull` | Assets/LoadModels.cs:166-174 | the models kept after dropping null import results are never more than the results, and each one was a non-null result |
| `Common.NonNullCounts` | Assets/LoadModels.cs:166-174 | each non-null result is kept exactly as often as it occurs, and nothing else is kept |
| `Common.NonNullAppend` | Assets/LoadModels.cs:166-174 | dropping nulls keeps the order: the kept models of two runs of results are those of the first run followed by those of the second |
| `UnityMatrix.Matrix4x4.Transpose` | Assets/LoadModelsController.cs:225 | entry `[r, c]` of `matrix.transpose` is entry `[c, r]` of the matrix |
| `UnityMatrix.TransposeInvolution` | Assets/LoadModelsController.cs:224-225 | transposing twice gives back the matrix |
| `UnityMatrix.IdentityEntries` | Assets/LoadModelsController.cs:306 | `Matrix4x4.identity` has ones on the diagonal and zeros elsewhere, and is its own transpose |
| `ModelTransforms.ParseTransform` | Assets/LoadModelsController.cs:301-321 | null data, a row count other than 4, or any null or non-length-4 row gives the identity; otherwise entry `[r, c]` is `data[c][r]`, because the constructor takes the rows as columns |
| `ModelTransforms.PlacementMatrix` | Assets/LoadModelsController.cs:222-225 | after the transpose, entry `[r, c]` of well-formed data's matrix is `data[r][c]`; mis-shaped data gives the identity |
| `ModelTransforms.ConvertMatrixToJson` | Assets/LoadModelsController.cs:515-530 | the array copy is 4x4 and entry `[i][j]` is `matrix[i, j]` |
| `ModelTransforms.PlacementRoundTrip` | Assets/LoadModelsController.cs:315-320 | copying the placement matrix of well-formed data back to an array yields exactly the data the server sent |
| `ModelTransforms.RowsRoundTrip` | Assets/LoadModelsController.cs:518-526 | a matrix copied to an array and parsed back as placement data is the same matrix |
| `ModelTransforms.PlacementPosition` | Assets/LoadModelsController.cs:228 | the position read from column 3 is `data[0][3], data[1][3], data[2][3]`, and the origin for null or mis-shaped data |
| `MovementCommands.TrimSlashes` | Assets/LoadModels.cs:85 | `Trim('/')` leaves neither end a slash and removes only a run of slashes at each end |
| `MovementCommands.TrimSlashesBetween` | Assets/LoadModels.cs:85 | when everything outside `s[i..j]` is a slash and `s[i..j]` is unpadded, `s` trims to exactly `s[i..j]` |
| `MovementCommands.TrimSlashesUnique` | Assets/LoadModels.cs:85 | an unpadded core surrounded by any slashes trims to that core |
| `MovementCommands.TrimSlashesPadding` | Assets/ObjectControllerServer.cs:76 | adding slashes at either end of a URL does not change what it trims to |
| `MovementCommands.TrimSlashesIdempotent` | Assets/ObjectControllerServer.cs:76 | trimming a trimmed string changes nothing |
| `MovementCommands.ToLower` | Assets/LoadModels.cs:85 | same length, each character lowered, and no upper-case ASCII letter left |
| `MovementCommands.NormalizeCommand` | Assets/LoadModels.cs:85 | the command is null exactly when the URL is null, and otherwise is the trimmed URL lowercased |
| `MovementCommands.SlashPaddingIgnored` | Assets/ObjectControllerServer.cs:76 | a URL and the same URL with extra slashes around it give the same command |
| `MovementCommands.DirectionOf` | Assets/LoadModels.cs:88-105 | the `switch` matches exactly the commands `left`, `right`, `up` and `down`, which give left, right, up and down; any other command, and null, match nothing |
| `MovementCommands.DirectionIdentifiesCommand` | Assets/ObjectControllerServer.cs:79-92 | two commands that set the same direction are the same command |
| `MovementCommands.NextDirection` | Assets/ObjectControllerServer.cs:79-96 | a known command sets its direction and an unknown or null command keeps the current one |
| `MovementCommands.ResponseText` | Assets/LoadModels.cs:108 | the reply is as long as its fixed frame plus the command, and a null command adds nothing |
| `MovementCommands.ResponseEchoesCommand` | Assets/ObjectControllerServer.cs:99 | every reply, for a known or an unknown command, starts with `Command '`, ends with `' executed!` and echoes the command exactly |
| `MovementCommands.MixedCaseExample` | Assets/LoadModels.cs:85-91 | `//LEFT/` is the command `left` and moves left |
| `LoadModels.LayoutSpacing` | Assets/LoadModels.cs:149-174 | the layout places exactly the non-null models, the k-th of them at x = 2k, with null results taking no slot |
| `LoadModels.LoadModels.constructor` | Assets/LoadModels.cs:14-18 | no selection, a zero direction, nothing placed or moved, and no server |
| `LoadModels.LoadModels.LoadAllGLBModels` | Assets/LoadModels.cs:131-177 | a missing folder or no `.glb` file changes nothing; otherwise the non-null models become children in file order and are placed by the layout |
| `LoadModels.LoadModels.PlaceLoadedModels` | Assets/LoadModels.cs:166-174 | the placement loop appends the non-null models to the children and their layout positions to the placements |
| `LoadModels.LoadModels.Start` | Assets/LoadModels.cs:20-39 | loading adds the non-null models to the children and places them by the layout (nothing for a missing folder or no file); then the first child is selected and the server started; with no child the selection and the server are left as they were |
| `LoadModels.LoadModels.HandleRequest` | Assets/LoadModels.cs:82-113 | the direction becomes the command's direction, unchanged for an unknown command, and the reply echoes the command |
| `LoadModels.LoadModels.Update` | Assets/LoadModels.cs:41-51 | the selection, if any, moves by the pending direction, which is then zero |
| `ObjectControllerServer.ObjectControllerServer.constructor` | Assets/ObjectControllerServer.cs:8-12 | no selection, a zero direction, nothing moved, and no server |
| `ObjectControllerServer.ObjectControllerServer.Start` | Assets/ObjectControllerServer.cs:14-30 | the first child, if any, is selected; the server starts only when an object is selected |
| `ObjectControllerServer.ObjectControllerServer.HandleRequest` | Assets/ObjectControllerServer.cs:73-104 | the direction becomes the command's direction, unchanged for an unknown command, and the reply echoes the command |
| `ObjectControllerServer.ObjectControllerServer.Update` | Assets/ObjectControllerServer.cs:32-42 | the selection, if any, moves by the pending direction, which is then zero |
| `ObjectControllerServer.CommandThenTick` | Assets/ObjectControllerServer.cs:32-42 | a command followed by a tick moves the selection exactly once, in the command's direction, and leaves nothing pending |
| `VRServer.ErrorBody` | Assets/VRServer.cs:165 | the error body is the message framed by `{"error": "` and `"}` |
| `VRServer.ErrorBodyRoundTrip` | Assets/VRServer.cs:165 | the error body starts and ends with its fixed frame and carries the message unchanged and unescaped |
| `VRServer.SendErrorResponse` | Assets/VRServer.cs:161-178 | the given status, content type `application/json`, only the allow-origin header, and the body `{"error": "<message>"}`, from which the message reads back unchanged |
| `VRServer.HandleSimpleRequest` | Assets/VRServer.cs:130-159 | the status is 200 exactly for `OPTIONS`, with the three CORS headers and no body; any other method gets 404 and `{"error": "Endpoint not found"}`; the allow-origin header is always present |
| `VRServer.MovementPathsNotFound` | Assets/VRServer.cs:147-148 | `/left`, `/right`, `/up` and `/down` are not queued, and unless they are a preflight they get 404 with the not-found message |
| `VRServer.NotifyResponse` | Assets/VRServer.cs:110-117 | a notification is answered with status 200, a JSON content type, the allow-origin header and the fixed success body |
| `VRServer.HandledEvents` | Assets/VRServer.cs:46-73 | the listener takes the events up to, and not including, the first `HttpListenerException`, and only those |
| `VRServer.RoutingPartition` | Assets/VRServer.cs:53-64 | queued requests are all `/notify`, forwarded ones never are, and together they are exactly the accepted requests, none lost or duplicated |
| `VRServer.HandledUpTo` | Assets/VRServer.cs:46-69 | a listener run that stops at the end of the events or at the first `HttpListenerException` has taken exactly the handled events |
| `VRServer.ObjectControllerServer.constructor` | Assets/VRServer.cs:10-16 | running, not yet listening, an empty queue and nothing answered |
| `VRServer.ObjectControllerServer.StartServer` | Assets/VRServer.cs:24-42 | the server listens exactly when the address can be bound, and a failure is only logged |
| `VRServer.ObjectControllerServer.ListenForRequests` | Assets/VRServer.cs:44-75 | a server that is not running and listening takes nothing; otherwise, up to the first `HttpListenerException`, `/notify` requests are queued in arrival order, every other request is answered by the simple handler, and every other exception is logged once |
| `VRServer.ObjectControllerServer.TakeEvent` | Assets/VRServer.cs:50-72 | one turn of the loop queues a notification, answers any other request, or logs a fault, and does nothing else |
| `VRServer.ObjectControllerServer.HandleNotifyRequest` | Assets/VRServer.cs:95-128 | a refresh is started only if a controller exists, and the 200 answer is written either way |
| `VRServer.ObjectControllerServer.ProcessQueuedRequests` | Assets/VRServer.cs:83-93 | the queue ends empty, every queued request is answered in FIFO order, and one refresh is started per request when a controller exists |
| `VRServer.ObjectControllerServer.StopServer` | Assets/VRServer.cs:190-207 | the server is no longer running nor listening |
| `LoadModelsController.Visible` | Assets/LoadModelsController.cs:193 | a descriptor is in the visible list exactly when it was fetched and is not hidden, and the list is no longer than the fetched one |
| `LoadModelsController.VisibleCounts` | Assets/LoadModelsController.cs:193 | each non-hidden descriptor is kept exactly as often as it was fetched, and no hidden one |
| `LoadModelsController.VisibleAppend` | Assets/LoadModelsController.cs:193 | the filter keeps the order: filtering two runs of descriptors gives the visible ones of the first followed by those of the second |
| `LoadModelsController.RefreshGuards` | Assets/LoadModelsController.cs:184-199 | a refresh returns early exactly when the fetch failed or every fetched model is hidden (an empty list included), and otherwise loads exactly the visible models |
| `LoadModelsController.AddedHandlesAreLoaded` | Assets/LoadModelsController.cs:210-219 | the objects added to the list are the non-null load results, in descriptor order |
| `LoadModelsController.IdMapKeys` | Assets/LoadModelsController.cs:213-219 | the lookup's keys are exactly the objects added to the list |
| `LoadModelsController.IdMapIds` | Assets/LoadModelsController.cs:219 | when the loads are distinct, each added object maps to the id of the descriptor it was loaded for |
| `LoadModelsController.PlacementsFollowList` | Assets/LoadModelsController.cs:213-244 | each added object, and only it, is placed, in list order |
| `LoadModelsController.PlacementsFollowDescriptors` | Assets/LoadModelsController.cs:222-244 | each placement uses the transform of the descriptor its object was loaded for |
| `LoadModelsController.RefreshedTracking` | Assets/LoadModelsController.cs:212-219 | after clearing and adding, the lookup's keys are exactly the non-null load results |
| `LoadModelsController.FirstPressedIsEarliest` | Assets/LoadModelsController.cs:110-149 | the `else if` chain picks nothing exactly when no key is pressed, and otherwise the pressed key earliest in A, D, W, S, Q, E, Z, X |
| `LoadModelsController.KeysPartition` | Assets/LoadModelsController.cs:110-149 | each key either moves (A, D, W, S) or edits (Q, E, Z, X), never both |
| `LoadModelsController.KeyedDirection` | Assets/LoadModelsController.cs:110-129 | a movement key sets its direction; any other key, or none, keeps the current direction |
| `LoadModelsController.KeyEdits` | Assets/LoadModelsController.cs:130-149 | there is an edit exactly when an object is selected and the first pressed key is Q, E, Z or X, and it is that key's edit of the selection; never more than one |
| `LoadModelsController.OneAction` | Assets/LoadModelsController.cs:110-149 | one call acts once: a frame's keys either edit the selection or change the direction, never both |
| `LoadModelsController.TransformUrl` | Assets/LoadModelsController.cs:481 | the transform URL's length is that of its fixed parts plus the id |
| `LoadModelsController.TransformUrlRoundTrip` | Assets/LoadModelsController.cs:481 | the URL starts with `http://127.0.0.1:8000/api/models/` and carries the model id intact, and it ends with `/transform` |
| `LoadModelsController.TransformPostFor` | Assets/LoadModelsController.cs:473-490 | a POST is made exactly for a tracked target, to its model's transform URL, with the fields `transform` (the matrix row by row) and `scene_id` |
| `LoadModelsController.Hierarchy.AncestorsOrSelf` | Assets/LoadModelsController.cs:83-93 | the walk starts at the clicked object itself |
| `LoadModelsController.NearestTrackedWalksChain` | Assets/LoadModelsController.cs:83-93 | walking up parent links returns the first tracked object of the ancestor chain |
| `LoadModelsController.FirstTrackedIsFirst` | Assets/LoadModelsController.cs:84-92 | the search finds nothing exactly when no object of the chain is tracked, and otherwise a tracked object with none tracked before it |
| `LoadModelsController.NearestTrackedIsFirst` | Assets/LoadModelsController.cs:72-102 | a click selects the nearest tracked object on the hit object's ancestor chain, and selects nothing exactly when no object on it is tracked |
| `LoadModelsController.LoadModelsController.constructor` | Assets/LoadModelsController.cs:19-26 | nothing loaded, tracked, selected, destroyed, edited or sent, and the list and lookup agree |
| `LoadModelsController.LoadModelsController.ClearLoadedModels` | Assets/LoadModelsController.cs:278-299 | the list ends empty, each listed object is destroyed and removed from the lookup, and entries for objects never listed stay |
| `LoadModelsController.LoadModelsController.AddLoadedModels` | Assets/LoadModelsController.cs:212-246 | the add loop appends the non-null results to the list, maps each to its descriptor's id (a later write wins) and records its placement matrix |
| `LoadModelsController.LoadModelsController.LoadModelsFromServer` | Assets/LoadModelsController.cs:180-249 | an early return leaves everything unchanged; otherwise the old models are destroyed, the list is the non-null loads, each maps to its descriptor's id and is placed by its transform, and the list and lookup still agree |
| `LoadModelsController.LoadModelsController.HandleMouseClick` | Assets/LoadModelsController.cs:72-102 | a click that hits selects the nearest tracked ancestor-or-self; no click, a miss, or nothing tracked keeps the selection |
| `LoadModelsController.LoadModelsController.UpdateModelTransform` | Assets/LoadModelsController.cs:473-514 | one POST for a tracked target and none for a null or untracked one |
| `LoadModelsController.LoadModelsController.HandleKeyboardClick` | Assets/LoadModelsController.cs:106-156 | the first pressed key alone acts: it moves, or edits the selection; the selection is pushed only when an action fired |
| `LoadModelsController.LoadModelsController.Update` | Assets/LoadModelsController.cs:49-70 | click, then keys, then the selection moves by the direction and is pushed again if the direction is not zero; the direction ends at zero |
| `LoadModelsController.LoadModelsController.Start` | Assets/LoadModelsController.cs:28-47 | the refresh's outcome, as for `LoadModelsFromServer`; then the first child is selected if there is one, and the list and lookup still agree |
| `LoadModelsController.WellFormedIsFormattable` | Assets/LoadModelsController.cs:426-435 | data the placement accepts can always be logged by `TooString` |
| `LoadModelsController.AddAsWrittenWhenFormattable` | Assets/LoadModelsController.cs:212-246 | when every loaded model's transform can be logged, the loop as written lists, maps and places exactly as the model's add loop does |
| `LoadModelsController.AddAsWrittenStops` | Assets/LoadModelsController.cs:212-222 | the loop as written completes exactly when every loaded model's transform can be logged; otherwise it leaves a prefix of the list and of the placements |
| `LoadModelsController.BadDataPlacedByIdentity` | Assets/LoadModelsController.cs:220-225 | with the identity fallback, every loaded model whose data is null or mis-shaped is placed by the identity |
| `LoadModelsController.NullTransformEndsRefresh` | Assets/LoadModelsController.cs:216-222 | two loaded models, the first without a transform: as written, the first is listed and mapped but not placed and the second is never tracked; with the identity fallback both are tracked and the first is placed with the identity |

## Left out

- Floating-point geometry is not modelled:
  - decomposing the placement matrix into position, rotation and scale (magnitudes, `normalized`, `Quaternion.LookRotation`);
  - `Translate` through the camera's `TransformDirection`;
  - `Rotate` by ±90°, and scaling by 2 and 0.5;
  - `moveSpeed` and `Time.deltaTime`.

  Moves and edits are recorded as values, and the objects' world matrices are
  method parameters.
- Network and file I/O are parameters:
  - the catalog fetch;
  - the GLB download, import and temp-file cleanup;
  - the directory listing;
  - the transform POST, which is recorded and not sent;
  - the `HttpListener` streams.
- JSON text is not modelled: Newtonsoft's deserialisation of the catalog and
  serialisation of the 4x4 array are foreign code. The model stops at the array.
- Colliders added by `LoadModelWithInfo` and the parenting of loaded models are not modelled.
  `Start` in the controller takes the children as they stand after the refresh.
- Threads, the thread pool, locks, `Join` and `Abort` are not modelled.
  - A listener run and a queue drain are each modelled as a sequential step.
  - `serverRunning` does not change during a listener run.
  - Overlapping refreshes are not modelled, although the source starts them without awaiting them.
- The 500 "Internal server error" paths are not modelled: they need a stream
  or handler exception, and exceptions are not part of the model. The
  output-stream closes are not modelled either.
- `LoadModels.LoadModels.Start`: a failure to bind the listener is not
  modelled, and the server is taken to start.
- `ObjectControllerServer.ObjectControllerServer.Start`: `httpListener.Start()`
  is called without a `try`, so a failure to bind throws out of `Start`. This is
  not modelled, and the server is taken to start whenever an object is selected.
- `VRServer.ObjectControllerServer.ListenForRequests`: forwarded requests are
  answered on the thread pool, so their answers can be written in any order.
  The model lists them in arrival order, which is one of the possible orders.
- Unity's `Destroy` and "destroyed object equals null" semantics are not
  modelled. Destroyed handles are recorded but stay ordinary values.
- `ToLower` is modelled for ASCII letters only. Culture-specific case mapping is
  not modelled.
- Logging is not modelled, except for `TooString`, which can throw; see the
  next line and "Findings".
- `LoadModelsController.LoadModelsController.LoadModelsFromServer`: the model
  uses the identity fallback of `ParseTransform` for every loaded model. The
  source first logs each descriptor with `TooString`, which throws on a null
  transform, a null row, or a row shorter than the row count. The exception ends
  the refresh after that model is listed and mapped but before it is placed,
  and later models stay untracked. `AddAsWritten` models that loop.
- `LoadModelsController.LoadModelsController.AddLoadedModels`: this is the
  corrected add loop. Every non-null model is listed, mapped and placed, with
  the identity for bad data. The source's loop instead stops at the first
  transform `TooString` cannot format, after listing and mapping that model.
- `LoadModelsController.LoadModelsController.Start`: this follows the corrected
  refresh and always makes its selection. As written, a `TooString` throw in the
  refresh ends `Start` before the selection. The controller's children after
  the refresh are a parameter, because the parenting of loaded models is not
  modelled.
- `LoadModelsController.LoadModelsController.LoadModelsFromServer`: the contract
  assumes that distinct loads return distinct objects (`NoDuplicates`). Each
  load creates a new object, so the list and lookup stay in step.
- `LoadModelsController.LoadModelsController.HandleKeyboardClick`: Q, E, Z or X
  with nothing selected is modelled as the `NullReferenceException` ending the
  call before any edit or push. The same holds for A, D, W and S with nothing
  selected: `TryGetValue(null)` throws, so nothing is sent.
- `LoadModelsController.LoadModelsController.Update`: a movement key on a
  tracked selection yields two pushes in one frame, one from the keyboard step
  and one after the move. The model keeps both, because the source does.

## Findings

| source | as written | input that shows it | evidently intended | confidence | as-written member | corrected member |
|---|---|---|---|---|---|---|
| Assets/LoadModelsController.cs:220 | `Debug.Log(modelInfo.TooString())` runs inside the add loop, and `TooString` (lines 426-435) reads `transform[i][j]` for every `i`, `j` below the row count, throwing on a null transform, a null row or a short row; the refresh stops after listing and mapping that model | two loaded models, the first with `transform` null: the first is listed and mapped but never placed, and the second is never tracked | log and go on, placing a model with bad data by the identity, as `ParseTransform` does for null or mis-shaped data (proved in `BadDataPlacedByIdentity`) | not executed; high | `LoadModelsController.NullTransformEndsRefresh` | `LoadModelsController.LoadModelsController.AddLoadedModels` |
