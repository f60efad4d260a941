# amongus-vr core, modelled in Dafny

This project models the small state machines and helpers of the amongus-vr
web client. The client is a React and three.js app where players walk a
spaceship map in a browser or a VR headset. The modelled parts are:

- the multiplayer scene (`Engine`): the registry of remote players fed by
  store events, the lobby-settings HUD, and the per-frame tick. The tick lets
  the controls move the player, undoes a move that leaves the floor, and
  publishes the position to the store;
- the single-player world (`SinglePlayer`): it picks the nav mesh out of the
  ship model, and its tick waits for the models to load, advances the walk
  animation and undoes moves off the floor. The floor rule is shared with the
  multiplayer scene (`Floor`);
- headset thumbstick locomotion (`Thumbstick`, `GameScene`, `HeadsetDemo`).
  This is the `movePlayer` loop over XR input sources in the scene component
  and in the stand-alone demo script, with its `prevGamePads` map and the
  handedness carried from source to source. The two copies differ only in
  how they fail before the astronaut model has loaded;
- the socket transport (`Socket`): one module-level socket, and calls that
  retry while no socket exists and then give up silently;
- the app-state reducer (`AppReducer`);
- the lobby-settings HUD (`CreateHud`): sixteen text lines drawn on a canvas,
  or an image used as the texture instead;
- HUD elements (`HudElements`): constructor defaults, edge placement of an
  image when it loads, and multi-line text layout;
- the menu starfield (`Stars`): one hundred stars that drift right and wrap
  around.

`Js` holds the pieces of JavaScript the code relies on: `undefined`/`null`
as an option, truthiness, `String(v)` as template literals use it, and
`parseInt(s, 10)`.

Inputs from the outside world are method parameters. These are what the
controls did to the player, the downward ray's hit count, `Math.atan2` of
the camera offset, the XR camera's direction, whether a socket exists at
each retry, random numbers, and the sizes of loaded images. A handler that
throws a `TypeError` is modelled as an outcome (`threw`, `Threw`). The
changes it made before the throw are kept. Each store or socket event is
one call on the modelled state.

`getSocket` is `Socket.Transport.GetSocket`. Its contract is the one on
`InitiateSocket`. `isIterable` is identical in `src/components/game/index.js`
and `src/assets/js/index.js`, and both are `Thumbstick.IsIterable`.

## Model

| member | source | states |
|---|---|---|
| Js.ToString | src/components/Engine/createHud.js:5-20 | A template literal inserts a string unchanged and an integer in decimal, with `-` for negatives. |
| Js.ParseInt | src/components/Stars/index.js:36 | `parseInt(s, 10)` is `NaN` exactly when no digit follows the leading white space and optional sign. |
| Js.ParseIntOfNatToString | src/components/Stars/index.js:25-36 | `parseInt(n.toString(), 10) == n` for every non-negative integer. |
| AppReducer.InitialState | src/app/reducer.js:1-4 | Both `username` and `color` start as `null`. |
| AppReducer.Reduce | src/app/reducer.js:6-18 | A state comes back exactly for `setUsername` and `setColor`. Each replaces only its own field with the action's value, and every other type throws. |
| AppReducer.ReduceIdempotent | src/app/reducer.js:10-14 | Dispatching the same setter twice gives the state one dispatch gives. |
| AppReducer.SettersCommute | src/app/reducer.js:10-14 | `setUsername` and `setColor` give the same state in either order. |
| Socket.RetryChain | src/utils/socket.js:41-43 | The reschedule chain finds the socket at the first attempt that sees one, and within `tries` retries. Otherwise it stops after `tries + 1` attempts, all without a socket. |
| Socket.RetryBounded | src/utils/socket.js:26-28 | Every chain ends, within `tries + 1` attempts, whatever the socket oracle says. |
| Socket.RetryImmediate | src/utils/socket.js:41-45 | A socket that exists at the call is used at once, with no reschedule. |
| Socket.RetryExhausted | src/utils/socket.js:42-43 | With `tries == 0` and no socket, the call returns at once with nothing queued. |
| Socket.DefaultBudget | src/utils/socket.js:26-28 | With the default `tries = 5`, a call makes at most six attempts. |
| Socket.Deliver | src/utils/socket.js:32-35 | An incoming event calls each callback registered for it, in order, with the message unchanged. |
| Socket.DeliverAfterSubscribe | src/utils/socket.js:32-35 | A new registration adds exactly one call to later deliveries of its own event and none to other events. |
| Socket.Transport.constructor | src/utils/socket.js:3 | The module starts with no socket and nothing emitted, registered or disconnected. |
| Socket.Transport.InitiateSocket | src/utils/socket.js:8-11 | After `initiateSocket`, `getSocket` returns the socket it created. |
| Socket.Transport.DisconnectSocket | src/utils/socket.js:16-21 | Without a socket it does nothing. Otherwise it disconnects that socket and leaves the variable set. |
| Socket.Transport.SendEvent | src/utils/socket.js:41-46 | It emits `(event, data)` exactly once if some attempt finds a socket. Otherwise it emits nothing after `tries + 1` attempts. |
| Socket.Transport.SubscribeToEvent | src/utils/socket.js:26-36 | It follows the same retry rule. On success it registers exactly one handler for the event, and nothing otherwise. |
| CreateHud.HudText | src/components/Engine/createHud.js:3-24 | The HUD text has exactly 16 lines. |
| CreateHud.HudTextMatchesTable | src/components/Engine/createHud.js:4-21 | Line i is entry i of the field table: its caption, the value of its key, and that field's suffix or on/off rendering. |
| CreateHud.HudTextLabels | src/components/Engine/createHud.js:4-21 | Line i starts with `caption: ` in the fixed table order. |
| CreateHud.SwitchLines | src/components/Engine/createHud.js:7-17 | `Confirm Ejects` and `Visual Tasks` depend only on the truthiness of `confirmEjects` and `visualTasks`. |
| CreateHud.VotingTimeReadsLowerCaseKey | src/components/Engine/createHud.js:11 | The Voting Time line reads the key `votingtime`. Without that key it shows `undefineds`. |
| CreateHud.Canvas.constructor | src/components/Engine/createHud.js:27-29 | A new canvas has the given size, nothing drawn, and the 2D context defaults. |
| CreateHud.Canvas.FillText | src/components/Engine/createHud.js:36 | `fillText` appends one draw and leaves the context's style fields alone. |
| CreateHud.LinesDescend | src/components/Engine/createHud.js:35-37 | The 16 lines are all drawn at x = 16, and y strictly increases with the line index. |
| CreateHud.CreateTextTexture | src/components/Engine/createHud.js:26-43 | The texture is a white, `start`-aligned, `24px Arial` canvas. Line i of the HUD text is at (16, 40 + 28.8 i). |
| CreateHud.HudFor | src/components/Engine/createHud.js:45-62 | A given image becomes the texture. Only without one is the text texture built, and with neither it throws. The mesh has the given size and is transparent. |
| CreateHud.CreateHud | src/components/Engine/createHud.js:45-62 | `createHud` returns exactly the reference result `HudFor`. |
| HudElements.Offset | src/components/HudElement/index.js:87 | Adding to a number shifts it by exactly the offset. Adding to `'center'` gives a non-number. |
| HudElements.Canvas.constructor | src/components/HudElement/index.js:52-54 | A new canvas has the window's size and nothing drawn. |
| HudElements.Canvas.Add | src/components/HudElement/index.js:66 | A draw call is appended and the style fields are unchanged. |
| HudElements.Split | src/components/HudElement/index.js:86 | `split('\n')` gives at least one piece, no piece holds `\n`, and text without `\n` is a single piece. |
| HudElements.JoinSplit | src/components/HudElement/index.js:86 | Joining the pieces with `\n` gives back the text: splitting loses nothing. |
| HudElements.TextDraws | src/components/HudElement/index.js:85-91 | Single-line text is drawn once at exactly (x, y). Otherwise piece i is drawn at y + (i + 1) * fontSize * 1.2. |
| HudElements.PiecesDescend | src/components/HudElement/index.js:87 | With a numeric y and a positive font size, each piece is drawn strictly below the one before it. |
| HudElements.Place | src/components/HudElement/index.js:59-64 | `bottom`/`right` beats `top`/`left`. A coordinate is centred only if it is still `'center'` after the edge rules, and is otherwise kept. |
| HudElements.PlaceIsNumeric | src/components/HudElement/index.js:59-64 | A placed coordinate is a number unless it started as a non-number and no edge was given. |
| HudElements.HudElement.constructor | src/components/HudElement/index.js:4-37 | The defaults are font size 32, `start`, `#FFFFFF` and (0, 0), and `mesh.name` equals `name`. With an image given the canvas starts empty; otherwise the text is laid out by `TextDraws`. |
| HudElements.HudElement.OnImageLoad | src/components/HudElement/index.js:58-67 | `x` and `y` become `Place` of the edge rules, in the source's order. The image is drawn at the result. |
| HudElements.CreateTextTexture | src/components/HudElement/index.js:75-96 | The canvas gets the element's colour, alignment and font size, and holds exactly the draws of `TextDraws`. |
| Stars.SizeOf | src/components/Stars/index.js:20-36 | A star's name is the decimal text of a size in 1..3, and `parseInt` reads that size back. |
| Stars.SmallNames | src/components/Stars/index.js:25-36 | `toString` of 1, 2 and 3 is "1", "2" and "3", and `parseInt` reads each back. |
| Stars.NameRoundTrip | src/components/Stars/index.js:20-36 | For every size `randomInt(1, 4)` can return, `parseInt(size.toString(), 10) == size`. |
| Stars.Advanced | src/components/Stars/index.js:36-37 | A star advances by delta * size * 0.2, or is reset to exactly 0 when that passes the width. With a non-negative width it never ends right of the width. |
| Stars.AdvancedStaysNonNegative | src/components/Stars/index.js:26-37 | A star at x >= 0 stays at x >= 0 when delta >= 0. |
| Stars.Starfield.constructor | src/components/Stars/index.js:19-32 | Exactly 100 stars are pushed, star i named after its size with x from the random draw. With a width above 5, every x is at least 5. |
| Stars.Starfield.MoveStars | src/components/Stars/index.js:34-39 | The array keeps its 100 stars, and each star i becomes `Advanced` of its old self. Nothing else changes, so every other star is untouched by the update of star i. |
| Stars.StepStar | src/components/Stars/index.js:36-37 | The loop body for one star gives exactly `Advanced`, reading the size through `parseInt`. |
| Stars.FrameBounds | src/components/Stars/index.js:34-39 | After a frame with delta >= 0, starting from non-negative positions, every star lies in [0, width]. |
| Thumbstick.IsIterable | src/components/game/index.js:31-36 | `null` is not iterable. `undefined` throws a `TypeError`. Otherwise the result is whether `Symbol.iterator` is a function. |
| Thumbstick.SteerLeft | src/components/game/index.js:110-131 | For a left hand, axis 2 moves x/z and axis 3 moves y, each scaled by `PLAYER_SPEED * 0.1`. |
| Thumbstick.SteerOtherHand | src/components/game/index.js:110-131 | For any other hand y never changes, and only axis 3 moves x/z along the camera. |
| Thumbstick.Axis2IgnoredForOtherHands | src/components/game/index.js:111-116 | For a non-left hand, the value on axis 2 changes no coordinate. |
| Thumbstick.Axis3MovesOnlyYForLeft | src/components/game/index.js:121-128 | For the left hand, the value on axis 3 changes only y. |
| Thumbstick.SteerLoop | src/components/game/index.js:110-132 | The index-by-index `forEach` over the axes ends at the reference position `Steer`. |
| Thumbstick.Visit | src/components/game/index.js:94-135 | A gamepad-less source is skipped and not recorded. A first sample is only recorded. A later sample throws exactly when the astronaut is missing and that file's gate fails. Otherwise it records the sample, and ticks the mixer only once loaded. |
| Thumbstick.VisitMoves | src/components/game/index.js:102-133 | A source moves the player by `Steer` only when it has a previous sample; otherwise the position stays. |
| Thumbstick.UnloadedDemoStaysPut | src/assets/js/index.js:236-266 | Before loading, a demo source whose axes never reach `player` only records its sample. |
| Thumbstick.Move | src/components/game/index.js:79-139 | Without a session nothing changes. Sources that `isIterable` throws on make the call throw. |
| Thumbstick.CarriedHandIsLatest | src/components/game/index.js:80-93 | A source's handedness is that of the latest source up to it that reported one. |
| Thumbstick.CarriedHandDefault | src/components/game/index.js:80-93 | When no source so far reported a handedness, the carried one is the initial `unknown`. |
| Thumbstick.CarriedHandShift | src/components/game/index.js:89-93 | The handedness carried past the first source is what the rest of the loop starts from. |
| Thumbstick.RunRecordsEverySource | src/components/game/index.js:89-136 | A call that does not throw records every gamepad source with a copy of its axes and its carried handedness. It keeps every other key and adds no key of its own. |
| Thumbstick.RunTicksOnlyWhenLoaded | src/assets/js/index.js:236-242 | Before loading, a call that does not throw never updates the mixer. |
| Thumbstick.GameThrowsBeforeLoad | src/components/game/index.js:102-108 | In the scene component, before loading, a source with a previous sample throws at `mixer.current.update`. |
| Thumbstick.FirstSamplesNeverMove | src/components/game/index.js:96-102 | When every source gives its first sample, the call never throws and changes neither the position nor the mixer. |
| Thumbstick.RotatedSettles | src/components/game/index.js:67-77 | Before loading, `rotatePlayer` never changes the heading. Once loaded, the heading depends on the bearing alone: the previous heading is forgotten, rotating again towards the same bearing changes nothing, and different bearings give different headings. |
| GameScene.World.constructor | src/components/game/index.js:61-65 | On mount nothing is loaded and `prevGamePads` is empty. |
| GameScene.World.OnAstronautLoaded | src/components/game/index.js:254-261 | Loading creates the player at the origin and leaves `prevGamePads` alone. |
| GameScene.World.RotatePlayer | src/components/game/index.js:67-77 | The heading becomes `Rotated`, and position, pads and mixer are untouched. |
| GameScene.World.MovePlayer | src/components/game/index.js:79-139 | The new position, pads, mixer count and throw are exactly those of the reference `Move` for the scene component. |
| HeadsetDemo.Demo.constructor | src/assets/js/index.js:30-34 | At load the models are missing and `prevGamePads` is empty. |
| HeadsetDemo.Demo.OnAstronautLoaded | src/assets/js/index.js:161-178 | Loading creates the player at the origin and leaves `prevGamePads` alone. |
| HeadsetDemo.Demo.RotatePlayer | src/assets/js/index.js:201-211 | The heading becomes `Rotated`, and position, pads and mixer are untouched. |
| HeadsetDemo.Demo.ApplyAxes | src/assets/js/index.js:244-266 | The `forEach` throws before changing anything exactly when `player` is undefined and axis 2 (left hand) or axis 3 is reached. Otherwise it moves by `Steer`. |
| HeadsetDemo.Demo.MovePlayer | src/assets/js/index.js:213-273 | The new position, pads, mixer count and throw are exactly those of the reference `Move` for the demo script. |
| Floor.Resolve | src/components/Engine/index.js:256-263 | With a nav mesh and zero hits, x and z end at their pre-tick values. Otherwise the controls' move is kept, and y is always the controls' value. |
| Floor.ResolveIsMovedOrReverted | src/components/world/index.js:278-289 | A tick ends where the controls put the player or back on the old x/z, never anywhere else. |
| Floor.RevertedTickKeepsPlanarPosition | src/components/world/index.js:286-289 | After a revert there is no planar displacement left. |
| Floor.ResolveIdempotent | src/components/Engine/index.js:259-262 | Resolving an already resolved position against the same snapshot changes nothing. |
| Engine.Publish | src/components/Engine/index.js:265-275 | The record gets the position and a rotation holding only `y`. Its other children are kept. |
| Engine.PublishOverwrites | src/components/Engine/index.js:266-275 | Publishing twice leaves what the second publish alone would. |
| Engine.World.constructor | src/components/Engine/index.js:82-96 | On mount the local player has speed 1, the registry and HUD are empty, and the loop is set. |
| Engine.World.OnChildAdded | src/components/Engine/index.js:181-190 | Null data, the local username or an already registered username changes nothing. Any other username gets one entry, one mesh and one `value` listener. |
| Engine.World.CreatePlayer | src/components/Engine/index.js:146-153 | The new player is stored under its username and its mesh is added to the scene. |
| Engine.World.OnMixerReady | src/components/Engine/index.js:159-160 | Once a remote player's mixer exists, its entry is marked; nothing else changes. |
| Engine.World.UpdatePlayer | src/components/Engine/index.js:155-163 | Null data does nothing. An unknown username throws, and an entry is updated only if it has a mixer. |
| Engine.World.RemovePlayer | src/components/Engine/index.js:165-177 | The `value` listener is detached and the entry's mesh leaves the scene. The registry is unchanged, and an unknown username throws after the detach. |
| Engine.World.OnChildRemoved | src/components/Engine/index.js:192 | The handler only returns `removePlayer` without calling it, so the registry, the scene, the listeners and the store are all unchanged. |
| Engine.World.Teardown | src/components/Engine/index.js:194-196 | Only the local player's store record is removed; no other field changes. |
| Engine.World.Animate | src/components/Engine/index.js:245-279 | The player ends at `Resolve` of the controls' move. Every tick writes the resulting position and only `rotation.y` to the local record, with no threshold. |
| Engine.World.StopLoop | src/components/Engine/index.js:283-285 | The cleanup clears the animation loop, keeps the registry invariant, and changes no other field. |
| Engine.World.UpdateHudAsWritten | src/components/Engine/index.js:202-221 | Null data does nothing. Any settings set the speed and rebuild the controls, remove the old HUD, then throw, leaving no HUD in `hudScene`. |
| Engine.World.UpdateHud | src/components/Engine/index.js:202-221 | With the settings as text, the old HUD is removed and `hudScene` ends holding exactly the new HUD, which shows the settings lines. |
| Engine.World.AddHud | src/components/Engine/index.js:219-220 | On an emptied HUD scene, the new HUD becomes `hud.current` and is the only HUD in `hudScene`; no other field changes. |
| Engine.HudSceneAtMostOne | src/components/Engine/index.js:215-220 | `hudScene` never holds more than one HUD. |
| Engine.HudAsWrittenAlwaysThrows | src/components/Engine/index.js:219 | `createHud({ data })` throws for every settings snapshot. |
| Engine.HudWithTextIsDrawn | src/components/Engine/index.js:219 | With the settings as `text`, `createHud` always yields a mesh with the 16 settings lines. |
| SinglePlayer.Prepared | src/components/world/index.js:136-148 | Every mesh becomes double-sided, never culled and transparent. The nav mesh is also hidden and lowered by 1, and other nodes are untouched. |
| SinglePlayer.PreparedTwice | src/components/world/index.js:138-142 | Preparing again changes nothing except the nav mesh, which sinks by 1 more. |
| SinglePlayer.LastNav | src/components/world/index.js:136-143 | `nav.current` ends on the last mesh named `nav-mesh` in traversal order, or stays unset when there is none. |
| SinglePlayer.World.constructor | src/components/world/index.js:54-60 | On mount nothing is loaded and the loop runs. |
| SinglePlayer.World.OnSkeldLoaded | src/components/world/index.js:133-153 | Every node becomes `Prepared` of itself in place, and `nav` becomes `LastNav` of the model. |
| SinglePlayer.World.OnAstronautLoaded | src/components/world/index.js:155-208 | Loading creates the player at the origin. |
| SinglePlayer.World.Animate | src/components/world/index.js:255-293 | Until the player and the nav mesh exist, a tick changes nothing but still renders. After that, the mixer advances exactly on an attempted planar move, even one that is reverted, and the player ends at `Resolve`. |
| SinglePlayer.World.StopLoop | src/components/world/index.js:295-299 | Teardown clears the animation loop and changes no other field. |

## Left out

- Rendering and scene setup are not modelled: renderer, cameras, lights, fog, resize handling, textures and materials. Neither is the material traversal of the astronaut and ship models in `src/components/game/index.js` and `src/assets/js/index.js`.
- GLTF/DRACO loading is not modelled. Each loader callback is one method (`OnAstronautLoaded`, `OnSkeldLoaded`), and the ship model is a flat array of nodes in traversal order.
- `Math.atan2`, the camera world direction and `controls.update()` are inputs: `bearing`, `facing`, `moved`/`turnedY`. The controls' `update` calls inside the thumbstick `forEach` are not counted.
- Floating point is not modelled: coordinates are reals, so `p.x += old.x - p.x` restores `old.x` exactly.
- The clock's delta times are not modelled: a mixer update is counted, not timed.
- `src/components/Player` is not part of this model. A remote player's `mixer` appears through `Engine.World.OnMixerReady`, and `player.update(data)` is recorded as the entry's latest data.
- The store and socket.io are not modelled as services. Store records are a map keyed by username. Event delivery is a handler call, and listeners are the set of paths with `updatePlayer` attached. Timing, the 50 ms delays and interleaving are not modelled.
- The HUD subscription in `src/components/Engine/index.js:230-235` compares a ref object to `'lobby'`, so it never attaches `updateHud` or `handleHudChange`. `handleHudChange` only re-reads the settings into `updateHud`, so it is not modelled on its own.
- Engine.World.UpdateHud: `if (player.current)` is always true there, because the mount effect sets `player.current` first, so the speed update is modelled unconditionally.
- Engine.World.OnChildAdded: `players.current` is an array used as an object. Inherited array properties such as a username of `length` are not modelled.
- CreateHud.HudText: numbers in the settings are integers; fractional settings such as a speed of 1.5 are not rendered by the model.
- Js.ParseInt: leading white space is space, tab, line feed and carriage return only.
- HudElements.HudElement.constructor: without an image, the text must be given. The source throws a `TypeError` at `this.text.includes` when it is not, and the model does not represent that throw.
- HudElements.HudElement.OnImageLoad: an edge given as `null` is not modelled; an edge is a number or `undefined`. The `Image` is created with undefined sizes, so the loaded image's own size is an input.
- Thumbstick.Move: a `null` entry among the XR input sources is not modelled. WebXR never yields one.
- Stars.Starfield.MoveStars: the vertical circle position, the blur filter and the ticker are not modelled. Only x and the name are.
- Stars.Starfield.constructor: each star's position is stored in a sequence of values. The Graphics objects' identity and the container are not modelled.
- `console.log`, `global.socket`, the `io(...)` connection itself, `src/worker/worker.js`, pages, routing, the control strategy classes and the stage loader are not modelled.

## Findings

| source | as written | input that shows it | evidently intended | confidence | as-written member | corrected member |
|---|---|---|---|---|---|---|
| src/components/Engine/index.js:219 | `createHud({ data })` passes the settings under the key `data`, so `text` is `undefined` and `createHudText(undefined)` throws a `TypeError`. The old HUD is removed first, so the HUD scene is left empty. | any non-null settings snapshot, e.g. `{ map: 'The Skeld' }` | `createHud({ text: data })`: draw the sixteen settings lines and keep exactly one HUD in the scene | high; not executed | Engine.World.UpdateHudAsWritten | Engine.World.UpdateHud |
