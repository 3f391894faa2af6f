# Keyboard, animation selector and movement of the examen-graficacion scene

The demo page loads a character and six animation clips, lets the user hold
keys to move the character and the camera, and lets the user switch the
playing clip either by keyboard shortcut or from an inspector panel. Apart
from calls into the rendering and physics libraries, its logic is a small
event-driven state machine over module-level state:

- `keys`, a dictionary from the twelve key names W, A, S, D, Z, X, C, V, B, N,
  O, P to "held" flags, written by the key-down and key-up handlers;
- `params.action`, the selected animation name, and `actions`, the clips
  loaded so far by asset name;
- the character body's position and the camera's position, nudged every
  frame by the keys held.

The model has these layers:

- `Keyboard` — the key map: `Press`, `Release`, and which shortcut selects which asset.
- `Animation` — the selector as a value `Selector(action, actions, calls)`.
  - Each clip is abstracted to loaded or not, and playing or not.
  - `calls` logs every `stop()`/`play()` the program makes, so "stopped once, then started once" can be stated.
  - `Change` is the guarded keyboard transition, `GuiChange` the panel handler, and `Register` the clip-load callback.
- `Movement` — integer positions and the per-frame updates of the character and the camera.
- `Scene` — the whole page state as a value. It holds one function per event and `Run` over a sequence of events.
  It also holds the lemmas that hold across any sequence of events:
  - key state is last-write-wins;
  - the key map keeps its twelve names and an asset stays selected;
  - at most two clips play at once, as long as the panel is not used (the proof covers the handler called before the selection is assigned, which lil-gui never does);
  - the character does not move (it has no body) while it has not loaded; the camera still moves with O and P every frame.
  - The panel choice as lil-gui delivers it is the separate event `PanelPick`: the selection is assigned first, then the handler runs.
- `Demo.Session` — a class whose fields are the page's module-level state.
  - Its methods are the handlers, written with the program's steps and the same in-place `+=`/`-=` and map updates. The key-down `switch` becomes an if/else-if chain over the same cases; the key-up `switch`, whose twelve cases all do the same thing, becomes one test for membership in the twelve names.
  - Each method is proved against a named counterpart: `OnKeyDown`, `OnKeyUp`, `OnCharacterLoaded`, `OnClipLoaded` and `Animate` against `Scene.KeyDown`, `Scene.KeyUp`, `Scene.CharacterLoaded`, `Scene.ClipLoaded` and `Scene.Animate`; `OnGuiChange` against `Scene.GuiSelect`; `OnPanelPick` against `Scene.PanelPicked`; `ChangeAnimation` against `Animation.Change`; `UpdateCharacterMovement` and `UpdateCameraPosition` against `Movement.MoveCharacter` and `Movement.MoveCamera`.

Three behaviours of the code are easy to miss:

- One might expect at most one clip to play at a time. In the code, `animacion2` starts playing as soon as it loads, whatever is selected. So, for example, loading `animacion2` and `animacion4` and pressing N leaves two clips playing (`Scene.TwoClipsPlayAfterN`).
  - The keyboard, the load callbacks and the panel handler keep a weaker rule when the handler runs before the selection is assigned: every playing clip is the selected one or `animacion2`. So at most two clips play (`Scene.ReachableAtMostTwoPlaying`).
  - The panel (lil-gui) does assign the chosen value to `params.action` before it calls the handler. The handler then stops and restarts the chosen clip, and never stops the previously selected one. So keyboard and panel together can leave three clips playing (`Scene.ThreeClipsPlayAfterPanelPick`).
- One might expect the selected action always to name a clip that is playing or about to start. In the code, `Idle` is selected at start and is never played when it loads (`Animation.SelectionNeedNotPlay`). More generally, a clip selected before it loads stays stopped once it loads (`Animation.DeferredSelectionStaysStopped`).
- One might expect the keyboard and the panel to share one transition. In the code, the panel handler has no equality guard (`Animation.GuiAgreesWithChange` shows they differ only there).
  - So a handler call for the selected clip stops and restarts it (`Animation.GuiReselectRestarts`).
  - Such a call can happen on this page. The panel's controller is added without `.listen()`, so after a keyboard shortcut the panel still shows the old name. Picking the name the keyboard chose is then a real change of the `<select>`, and lil-gui receives the value already in `params.action`. Whether lil-gui then calls the handler depends on its own equality check, which is not modelled.

## Model

| member | source | states |
|---|---|---|
| Keyboard.AnimationKeyIndex | js/main.js:229-253 | exactly Z, X, C, V, B, N select an asset, the i-th shortcut the i-th asset |
| Keyboard.Press | js/main.js:228-263 | a recognised key becomes held, no other entry changes, any other key leaves the map unchanged |
| Keyboard.Release | js/main.js:265-282 | a recognised key stops being held, no other entry changes, any other key leaves the map unchanged |
| Keyboard.KeySetsPartition | js/main.js:228-263 | the six shortcut keys and the six movement keys are disjoint and together are the twelve recognised keys |
| Keyboard.PressThenRelease | js/main.js:228-282 | key-down then key-up of a key leaves it not held and every other entry as it was |
| Movement.MoveCharacter | js/main.js:199-215 | per frame S lowers z by 2, W raises z by 2, D lowers x by 2, A raises x by 2, y never changes |
| Movement.MoveCamera | js/main.js:217-226 | per frame O moves the camera by +5 and P by -5 along x; y and z never change |
| Movement.OppositeKeysCancel | js/main.js:199-226 | opposite keys held together cancel, for the character and the camera |
| Movement.MovementReadsOnlyMovementKeys | js/main.js:199-226 | movement depends on nothing but the flags of S, W, D, A, O, P |
| Animation.StopIfLoaded | js/main.js:286-288 | the clip is stopped and one stop call logged only if it is loaded; otherwise nothing changes |
| Animation.PlayIfLoaded | js/main.js:290-292 | the clip is played and one play call logged only if it is loaded; otherwise nothing changes |
| Animation.Change | js/main.js:284-294 | re-selecting the selected name changes nothing; otherwise the old clip is stopped if loaded, the new name is always selected, the new clip plays if loaded, every other clip is unchanged, and exactly those calls are logged |
| Animation.GuiChange | js/main.js:157-165 | without a guard: the old clip is stopped if loaded, the value is selected, its clip plays if loaded, other clips unchanged, exactly those calls logged |
| Animation.Register | js/main.js:118-123 | the asset is registered, it plays only if it is animacion2, the selection and every other clip are unchanged |
| Animation.InitialKeepsInvariant | js/main.js:10-12 | the start state (Idle selected, nothing loaded) satisfies the invariant and selects an asset |
| Animation.TransitionsKeepInvariant | js/main.js:118-165 | the keyboard transition, the load callback and the panel handler called before the selection is assigned keep "every playing clip is the selected one or animacion2"; a panel choice as lil-gui delivers it does not (see Scene.ThreeClipsPlayAfterPanelPick) |
| Animation.AtMostTwoPlaying | js/main.js:118-123 | under that invariant at most two clips play at once |
| Animation.ChangeIdempotent | js/main.js:285 | a keyboard transition to the selected name is a no-op, so a repeated one changes nothing |
| Animation.GuiAgreesWithChange | js/main.js:157-165 | the panel handler equals the keyboard transition whenever the value differs from the selection |
| Animation.GuiReselectRestarts | js/main.js:157-165 | choosing the selected, loaded clip from the panel logs a stop then a play of it and leaves it playing |
| Animation.SwitchStopsThenPlays | js/main.js:286-292 | switching from A to B, both loaded, logs exactly one stop of A then one play of B, A stopped, B playing |
| Animation.DeferredSelectionStaysStopped | js/main.js:118-123 | a clip selected before it loads stays stopped when it loads, unless it is animacion2 |
| Animation.SelectionNeedNotPlay | js/main.js:118-123 | Idle can be selected and loaded yet stopped, and two clips can play at once |
| Scene.KeyDown | js/main.js:228-263 | key-down updates the key map as Press does; each shortcut key selects its asset through the guarded transition; movement keys leave the animation alone; other keys change nothing |
| Scene.KeyUp | js/main.js:265-282 | key-up updates the key map as Release does and changes nothing else |
| Scene.GuiSelect | js/main.js:157-165 | the panel handler, called before the selection is assigned, changes only the selector |
| Scene.PanelPicked | js/main.js:157-165 | a panel choice as lil-gui delivers it: the value is selected, its clip is stopped and restarted if loaded, every other clip (the previous one included) is unchanged, and only that stop and play are logged |
| Scene.CharacterLoaded | js/main.js:101-115 | the character body appears at (0, 15, 0); nothing else changes |
| Scene.ClipLoaded | js/main.js:117-127 | a clip load changes only the selector, as Register says |
| Scene.Animate | js/main.js:192-193 | per frame the character moves only once it has loaded, and the camera moves every frame |
| Scene.LastWriteWins | js/main.js:228-282 | after any sequence of events a recognised key is held exactly when its latest key event was a key-down |
| Scene.InitialValid | js/main.js:10-15 | the start state has all twelve keys, selects an asset and satisfies the playing invariant |
| Scene.StepKeepsWellFormed | js/main.js:118-294 | every event, panel choices from the asset list included, keeps the twelve key names and an asset selected |
| Scene.RunKeepsWellFormed | js/main.js:118-294 | any sequence of such events keeps the twelve key names and an asset selected |
| Scene.KeyDownKeepsValid | js/main.js:228-263 | a key-down keeps "every playing clip is the selected one or animacion2" |
| Scene.GuiSelectKeepsValid | js/main.js:157-165 | the panel handler, called before the assignment, keeps that rule |
| Scene.ClipLoadedKeepsValid | js/main.js:118-123 | a clip load keeps that rule |
| Scene.StepKeepsValid | js/main.js:118-294 | the keyboard, the load callbacks and the handler called before the assignment keep the state invariant |
| Scene.RunKeepsValid | js/main.js:118-294 | any sequence of those events keeps the state invariant |
| Scene.ReachableAtMostTwoPlaying | js/main.js:118-123 | at most two clips play after any events from the start as long as the panel is not used; the proof also covers the handler called before the selection is assigned, an order lil-gui never uses |
| Scene.NoCharacterNoMovement | js/main.js:192 | if the character never loads, no sequence of events gives it a position |
| Scene.KeyDownIdempotent | js/main.js:228-294 | a repeated key-down, as keyboard auto-repeat sends, acts like a single one |
| Scene.HoldingSStepsBack | js/main.js:203-205 | with S alone held and the character loaded, one frame moves the body by exactly -2 along z |
| Scene.LoadAnimacion2Animacion4 | js/main.js:117-123 | after the character, animacion2 and animacion4 load, Idle is selected and only animacion2 plays |
| Scene.LoadTwoClipsThenN | js/main.js:250-253 | pressing N after those loads selects animacion4 and plays it, with no stop call, leaving both clips playing |
| Scene.TwoClipsPlayAfterN | js/main.js:121-123 | loading animacion2 and animacion4 then pressing N leaves both playing |
| Scene.RunSnoc | js/main.js:228-294 | running one more event is applying one more handler to the state so far |
| Scene.LoadWalkingAnimacion1Animacion2 | js/main.js:117-123 | after the character and Walking, animacion1, animacion2 load, Idle is selected and only animacion2 plays |
| Scene.PanelWitnessFromAssets | js/main.js:157 | the panel choice in the three-clip trace is one of the offered asset names |
| Scene.PanelPickTracePlaysThree | js/main.js:157-165 | step by step, the trace of X then a panel choice of animacion1 (assigned first) ends with Walking, animacion1 and animacion2 playing |
| Scene.ThreeClipsPlayAfterPanelPick | js/main.js:157-165 | X then a panel choice of animacion1 (an offered asset), with lil-gui assigning first, leaves Walking, animacion1 and animacion2 all playing |
| Demo.Session.constructor | js/main.js:8-15 | the session starts with all keys released, Idle selected, nothing loaded, the camera at (100, 200, 300) |
| Demo.Session.ChangeAnimation | js/main.js:284-294 | the in-place transition equals Animation.Change and touches only the selection, the clips and the call log |
| Demo.Session.OnGuiChange | js/main.js:157-165 | the in-place panel handler equals Scene.GuiSelect and keeps the invariant |
| Demo.Session.OnPanelPick | js/main.js:157-165 | assigning the chosen value and then running the handler equals Scene.PanelPicked |
| Demo.Session.OnKeyDown | js/main.js:228-263 | the in-place key-down handler equals Scene.KeyDown and keeps the invariant |
| Demo.Session.OnKeyUp | js/main.js:265-282 | the in-place key-up handler equals Scene.KeyUp and keeps the invariant |
| Demo.Session.OnCharacterLoaded | js/main.js:101-115 | the character callback marks the character ready at (0, 15, 0) |
| Demo.Session.OnClipLoaded | js/main.js:118-123 | the in-place clip callback equals Scene.ClipLoaded and keeps the invariant |
| Demo.Session.UpdateCharacterMovement | js/main.js:199-215 | the in-place body update equals Movement.MoveCharacter |
| Demo.Session.UpdateCameraPosition | js/main.js:217-226 | the in-place camera update equals Movement.MoveCamera |
| Demo.Session.Animate | js/main.js:192-193 | one frame equals Scene.Animate: the body moves only when the character is ready (the body field is untouched otherwise), the camera always |
| Demo.WalkFromIdle | js/main.js:234-236 | with Idle selected and Idle and Walking loaded, pressing X makes exactly the calls stop Idle then play Walking, selects Walking, and leaves Idle stopped and Walking playing |

## Left out

- Physics: the cannon-es world, its materials and `world.step(1/60)` are a foreign floating-point library. In the model the character body moves only when the character loads and when keys are held; gravity and contacts do not move it.
- Physics-to-visual synchronisation (`scene.traverse` copying positions and quaternions) copies foreign float vectors.
- Rendering, lights, fog, materials, the statistics panel, the renderer and window resizing are library calls with no logic of their own.
- Camera moves made by the orbit controls are not modelled. `OrbitControls` rewrites `camera.position` on mouse drag and wheel, and `controls.update()` recomputes it. So in the program the camera is moved by the mouse as well as by O and P; the model covers only the O/P moves.
- Event order is deliberately over-approximated. `Scene.Run` accepts a clip load before the character load, and repeated loads of one asset. The program produces neither: clip loads start inside the character callback, once per asset. Every lemma over event sequences therefore covers at least the program's own orders.
- The random number and placement of the spheres use `Math.random` and floats.
- Asset loading is asynchronous I/O. Only its completions are modelled, as the events `CharacterArrived` and `ClipArrived`. A failed load only logs, so it is modelled as a callback that never fires.
- Demo.Session.UpdateCharacterMovement: requires the character to be ready, because the program calls it only behind that gate; called earlier, the program would read a missing body.
- `mixer.update(delta)` and `clock.getDelta()` advance clips by wall-clock float time. A clip's `play()`/`stop()` are reduced to a playing flag, so fades and time resets are not modelled.
- The `requestAnimationFrame` scheduling is the host's event loop. A single frame is the method `Animate`.
- Animation.GuiChange: models the panel handler as written, called while `params.action` still holds the previous selection. lil-gui itself is not part of this model. lil-gui assigns the chosen value to the property before it runs the handler; that order is modelled separately as `Scene.PanelPicked` and `Demo.Session.OnPanelPick`. Whether lil-gui skips the handler when the value is unchanged is not modelled.
- Key names are compared exactly as the browser reports them. So a lower-case `w` (no Shift) is not a recognised key and is ignored, like any other name.
