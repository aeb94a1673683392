# three-js-portfolio: a Dafny model of the per-frame logic

This project models the decision logic of a browser 3D portfolio. A player
drags the pointer to walk or run a physics-driven avatar across a small
world. The camera follows at a fixed offset. Footstep loops switch with the
gait and the surface underfoot, read from a stone mask. Grass blades and
butterflies are scattered by rejection sampling against image masks.
Non-player characters cross-fade between animation clips and swap a
face texture. The application steps through loading, intro, dialog and
free-play phases.

One Dafny module per source file (plus shared ones):

- `Wrappers`: the Option type.
- `Masks`: the RGBA mask buffer, JavaScript's `~~` truncation, and the UV-to-pixel index that stays inside the buffer.
- `Motion`: vectors, the Idle/Walk/Run classifier on squared drag lengths, the edge-triggered animation request, the rigid body, camera, animation handle and pointer-drag objects, and the spawn placement.
- `Audio`: the looping sound's play/pause state machine, the one-shot handle, the audio-context unlock, and the four footstep channels.
- `PlayerController`: `src/components/PlayerController.tsx`, covering stone sampling, the footstep branch table, the frame decision and the `Controller` class with its `Tick`.
- `BobController`: the earlier controller, `src/CharacterController.tsx`.
- `Random`: `Math.random` as an oracle stream of reals in [0, 1).
- `Grass`: `src/Grass.tsx`, covering the tile grid, the mask sample, the `makeTile` placement loop into a fixed-size instance buffer, the keyed tile list and the wind clock.
- `Bugs`: `src/components/outerWorld/Bugs.tsx`, covering the wing buffers, the `lum` lookup, the placement loop into `offsets`/`phases` and the clock.
- `Names`: `toLowerCase().includes(...)`.
- `Animation`: the three.js `AnimationAction` calls the models make and the mixer clock.
- `Scene`: textures, materials, nodes in traversal order, the three material conversions, the last-match head rule and `setFaceTexture`.
- `PlayerModel`, `CharacterModel`, `NpcController` (for `src/components/CharacterController.tsx`), `Character` and `Me`: the clip tables and clip-switching effects of the five character components.
- `App`: the phase machine and what each phase shows.

React effects become methods on classes holding the refs. Pure
expressions become functions. Loops become `while` loops with invariants.
Every time, position and speed is a `real`.

Where the components' call sites and their definitions disagree, the components are modelled from their definitions. App's callbacks are modelled as the closures App passes (`App.AppState`), and the observations below say which of them can fire as written:

- `src/App.tsx:41-44` hands the loading screen `ready` and `onFinished`. `src/components/LoadingScreen.tsx:1` declares no props, so it ignores both and never calls `onFinished`. It is not modelled beyond that.
- `src/App.tsx:47-53` hands the dialog `characterName`, `dialogue` and `onClose`. `src/components/Dialog.tsx:8-14` declares `entries`, `currentIndex` and `onNext`, so `onClose` is never called.
- `src/App.tsx:71-75` hands the player controller `intro`, `disableInput` and `onIntroComplete`, as if it ran an intro walk-in and locked input outside play. `src/components/PlayerController.tsx:36` declares no props, so it ignores all three. Its camera offset is the fixed slider triple (`src/components/PlayerController.tsx:48-52, 220`). `App.ViewOf` models only the values App computes for those props.
- Two controllers exist side by side: `src/components/PlayerController.tsx` and the earlier `src/CharacterController.tsx`. The earlier one is a module of its own (`BobController`), since its vertical velocity and radius differ.

Observations the model exposes:

- `CharacterModel.tsx` and `CharacterController.tsx` each register a frame callback that calls `mixer.update(dt)` (`src/components/CharacterModel.tsx:172`, `src/components/CharacterController.tsx:77`). So these two callbacks alone advance the character's mixer by 2·dt per frame (`NpcController.FrameBoth`). Any advance the animation library makes on its own comes on top of that and is not modelled.
- `attempt++ < maxAttempts` and `tries++ < max` bump their counter once more in the failing test. The models count the candidates actually drawn.
- As written, the app never leaves the loading phase (not executed; read from the code). `setPhase` is called only inside the three closures at `src/App.tsx:43`, `51` and `74`. The loading screen, the player controller and the dialog each ignore the prop that carries theirs. So the only callback that ever fires is suspense-done. By `App.AsWrittenStaysLoading` (an instance of `App.LoadingUntilFirstPhaseEvent`), the phase then stays loading, the loading screen stays up and input stays disabled.
- The dialog and play phases are therefore unreachable as written. If the dialog phase were reached, `entries[currentIndex]` at `src/components/Dialog.tsx:15` would read `undefined[undefined]` and throw on its first render. `App.IntendedVisit` and `App.ClosedDialogPlays` model the sequence the callbacks are meant to give.

## Model

| member | source | states |
|---|---|---|
| Masks.ToInt32IsFloor | src/Grass.tsx:141 | `~~r` equals `floor(r)` for every non-negative r below 2^31, so the grass and bug lookups index like `Math.floor` |
| Masks.Cell | src/components/PlayerController.tsx:81-82 | for u in [0,1] the pixel column `floor(u*(size-1))` lies in [0, size) |
| Masks.RedOffsetInside | src/components/PlayerController.tsx:83 | for in-range pixel indices, the byte offset `(iz*width+ix)*4` and its three successors lie inside the `width*height*4` buffer |
| Masks.RedOfPixel | src/components/PlayerController.tsx:83 | a red byte divided by 255 lies in [0,1] |
| Masks.RedAt | src/components/PlayerController.tsx:81-83 | the mask's red channel at (u,v) in the unit square is a value in [0,1] |
| Masks.TruncatedCell | src/Grass.tsx:141 | the `~~` index of `u*(size-1)` equals the floored cell |
| Masks.RedAtTruncated | src/components/outerWorld/Bugs.tsx:68 | the lookup written with `~~` reads the same byte as the floored lookup |
| Motion.ClassifyMatchesLength | src/components/PlayerController.tsx:137-141 | classifying on squared lengths gives the same state as comparing the length itself with 2 and the radius |
| Motion.ClassifyCases | src/components/PlayerController.tsx:133-156 | Idle iff pointer up or \|v\|²≤4; Walk iff down with 4<\|v\|² <radius²; Run iff down with \|v\|²>4 and \|v\|²≥radius² |
| Motion.AnimationRequest | src/components/PlayerController.tsx:159-162 | a request is made iff the desired state differs from the stored one, and it asks for the desired state |
| Motion.RepeatedStateRequestsOnce | src/components/PlayerController.tsx:159-162 | holding one state over n frames requests it at most once, and not at all if it was already stored |
| Motion.RepeatsAfterFirst | src/components/PlayerController.tsx:159-162 | a state repeated after it is stored triggers nothing |
| Motion.RequestsAlternate | src/components/PlayerController.tsx:159-162 | consecutive requests always differ, and the first differs from the stored state |
| Motion.Drive | src/components/PlayerController.tsx:133-156 | the drive step returns the classified state, the matching speed (0 when Idle) and the normalised camera-relative heading |
| Motion.RigidBody.SetLinvel | src/components/PlayerController.tsx:203-213 | `setLinvel` replaces the velocity and keeps the position |
| Motion.Camera.Follow | src/components/PlayerController.tsx:220-221 | the camera sits at body position + offset and looks at the body |
| Motion.PlaceAtSpawn | src/components/PlayerController.tsx:87-94 | the body (if any) is moved to (0,0,-47); the camera goes to (0,3,-41) looking at the spawn |
| Motion.PointerDrag.constructor | src/components/PlayerController.tsx:59-60 | the drag starts up, at (0,0) |
| Motion.PointerDrag.PointerDown | src/components/PlayerController.tsx:100-103 | `down` sets isDown, then records the centre-relative offset (the earlier controller's handler at src/CharacterController.tsx:72-75 is identical) |
| Motion.PointerDrag.PointerMove | src/components/PlayerController.tsx:107-113 | `move` records the centre-relative offset while down and is ignored while up (identical in src/CharacterController.tsx:79-85) |
| Motion.PointerDrag.PointerUp | src/components/PlayerController.tsx:104-106 | `up` clears isDown and leaves the offset unchanged (identical in src/CharacterController.tsx:76-78) |
| Audio.LoopPlay | src/utils/audioManager.ts:98-103 | play while playing changes nothing; otherwise a source starts at the saved offset and startedAt = now − offset |
| Audio.LoopPause | src/utils/audioManager.ts:104-110 | pause while stopped changes nothing; otherwise the source goes and offset = now − startedAt |
| Audio.PlayThenPause | src/utils/audioManager.ts:100-106 | play at t then pause at t' grows the offset by exactly t' − t and leaves the loop stopped |
| Audio.NoJump | src/utils/audioManager.ts:98-110 | neither play nor pause moves the playback position at the moment of the call |
| Audio.PlayingIffLastWasPlay | src/utils/audioManager.ts:98-111 | after any call sequence the loop is playing iff the last call was play, or there were none and it was playing |
| Audio.PositionIsPlayedTime | src/utils/audioManager.ts:98-110 | the playback position equals the starting offset plus the total time spent playing |
| Audio.FreshPositionIsPlayedTime | src/utils/audioManager.ts:85-111 | from a fresh loop the position is exactly the time spent playing |
| Audio.LoopSound.constructor | src/utils/audioManager.ts:85-87 | a new loop has no source, startedAt 0 and offset 0 |
| Audio.LoopSound.Play | src/utils/audioManager.ts:98-103 | the mutable handle's play performs `LoopPlay` on its state |
| Audio.LoopSound.Pause | src/utils/audioManager.ts:104-110 | the mutable handle's pause performs `LoopPause` on its state |
| Audio.LoopSound.IsPlaying | src/utils/audioManager.ts:111 | `isPlaying` is true iff a source exists |
| Audio.OneShot.Play | src/utils/audioManager.ts:65-70 | each play starts one new buffer source |
| Audio.OneShot.Pause | src/utils/audioManager.ts:71 | pause changes nothing |
| Audio.OneShot.IsPlaying | src/utils/audioManager.ts:72 | a one-shot never reports playing |
| Audio.UnlockAudioContext | src/utils/audioManager.ts:21-30 | listeners for touchstart and click are added only when the context is suspended |
| Audio.Resume | src/utils/audioManager.ts:23-27 | resuming runs the context and removes both listeners |
| PlayerController.SampleStone | src/components/PlayerController.tsx:75-84 | the sample is in [0,1]; 0 without a mask or when u or v is off [0,1]; otherwise the mask's red value at (u,v) |
| PlayerController.NoDataSoundsLikeStone | src/components/PlayerController.tsx:165 | with no mask, or off the mask, the surface counts as stone |
| PlayerController.OnStoneOnMask | src/components/PlayerController.tsx:165 | on the mask, onStone holds iff the red value is below 0.5 |
| PlayerController.FootstepTablePlaysIntended | src/components/PlayerController.tsx:167-198 | a channel is told to play iff it is the intended one (run/walk × stone/grass); Idle plays none |
| PlayerController.AtMostOneFootstep | src/components/PlayerController.tsx:167-198 | at most one channel gets `play()` in a tick |
| PlayerController.OnlyIntendedPlays | src/components/PlayerController.tsx:167-198 | after the tick's calls a channel is playing iff it is the intended one, whatever played before |
| PlayerController.PlayFootsteps | src/components/PlayerController.tsx:167-198 | with four distinct sounds, the calls leave the channels in `StepFootsteps` of their previous states |
| PlayerController.IdleStops | src/components/PlayerController.tsx:202-214 | pointer up or a drag within the dead zone gives Idle, speed 0 and a zero velocity |
| PlayerController.MovingKeepsFall | src/components/PlayerController.tsx:140-142 | beyond the dead zone: Walk at walkSpeed below the radius, Run at runSpeed from it; the velocity is dir·speed on x,z and keeps the current y |
| PlayerController.RequestOnChangeOnly | src/components/PlayerController.tsx:159-162 | the frame decision requests an animation iff the state changes, and requests the new state |
| PlayerController.Controller.constructor | src/components/PlayerController.tsx:55-63 | no body, no handle, no mask, state Idle, drag up |
| PlayerController.Controller.Move | src/components/PlayerController.tsx:126-221 | stored state, animation request, velocity and camera are exactly the frame decision; the body is not moved |
| PlayerController.Controller.Request | src/components/PlayerController.tsx:159-162 | the stored state becomes the desired one, and the handle gets a request exactly when it changed |
| PlayerController.Controller.Tick | src/components/PlayerController.tsx:126-222 | no body: nothing changes; otherwise the frame decision; with four loaded sounds the footstep channels step by the table; while any channel is still loading none is touched |
| BobController.NoVerticalDrive | src/CharacterController.tsx:137-149 | the written velocity's y component is always 0 |
| BobController.DefaultClassification | src/CharacterController.tsx:37 | with the defaults (radius 250): Idle iff up or \|v\|≤2, Walk iff 2<\|v\|<250, Run iff \|v\|≥250, each with its speed and velocity |
| BobController.Controller.constructor | src/CharacterController.tsx:40-50 | no body, no handle, state Idle, drag up |
| BobController.Controller.Tick | src/CharacterController.tsx:98-157 | no body: nothing changes; otherwise state, request, velocity (y = 0, zero when idle) and camera as decided |
| Random.Rng.Draw | src/Grass.tsx:151 | each `Math.random()` returns the next stream element, in [0,1) |
| Grass.Side | src/Grass.tsx:126 | the tile side is positive and tiles copies of it make the field |
| Grass.BladesPerTile | src/Grass.tsx:127 | blades per tile is floor(bladeCount / tiles²) |
| Grass.Sample | src/Grass.tsx:136-143 | the sample is in [0,1]; 0 off the unit square; otherwise the red value at (u,v) |
| Grass.TileInsideField | src/Grass.tsx:171-172 | every tile centre lies strictly inside (−field/2, field/2), with its whole tile inside the field |
| Grass.TilesAbut | src/Grass.tsx:171-172 | neighbouring centres are one side apart |
| Grass.Decimal | src/Grass.tsx:173 | a number's decimal text is non-empty, all digits, one digit iff below 10 |
| Grass.DecimalInjective | src/Grass.tsx:173 | different numbers have different decimal texts |
| Grass.KeysDistinct | src/Grass.tsx:173 | equal keys `${ix}-${iz}` mean equal tile coordinates |
| Grass.TileMesh.constructor | src/Grass.tsx:131 | a tile mesh holds BladesPerTile identity matrices |
| Grass.Candidate | src/Grass.tsx:151-163 | accepted iff the mask sample under the two position draws reaches the threshold; the candidate and the draws taken (2 if rejected, 4 if kept) are `TrialAt`'s; an accepted blade lies in its tile, its stored `turn` (yaw in units of π) is in [−½, ½), its scale in [0.5, 1) |
| Grass.MakeTile | src/Grass.tsx:130-167 | a fresh mesh of BladesPerTile slots at the centre; what is kept, the attempts used and the stream position reached are `Scatter`'s; placed ≤ bladesTile and attempts ≤ 10·bladesTile, the budget spent whenever the tile is short; slots below placed hold accepted blades, the rest identity |
| Grass.TrialAccepted | src/Grass.tsx:151-161 | every candidate the reference trial keeps satisfies `Accepted` |
| Grass.ScatterBounds | src/Grass.tsx:146-164 | the reference loop never rewrites a kept blade, keeps at most bladesTile blades in at most 10·bladesTile attempts, spends the whole budget when short, keeps only accepted blades and only reads forward |
| Grass.Fill | src/Grass.tsx:146-164 | the `while` loop over an all-identity buffer writes exactly `Scatter`'s blades into the first slots and leaves the rest identity |
| Grass.Attempt | src/Grass.tsx:150-163 | one counted attempt writes an accepted blade into slot `placed` and keeps the remaining `Scatter` from the new state equal to the whole one |
| Grass.NewTile | src/Grass.tsx:171-173 | the inner loop's tile carries key `${ix}-${iz}` and a mesh centred at (Centre(ix), Centre(iz)) |
| Grass.BuildTiles | src/Grass.tsx:122-176 | none without a mask; otherwise tiles² tiles, tile (ix,iz) at position ix·tiles+iz with key `${ix}-${iz}` and centre (Centre(ix), Centre(iz)) |
| Grass.BuildRow | src/Grass.tsx:170-174 | the inner loop appends row ix: tile (ix,iz) lands at ix·tiles+iz with its key and centre, earlier rows untouched |
| Grass.WindFrame | src/Grass.tsx:193-196 | uTime grows by exactly dt·2 per frame |
| Bugs.WingVertices | src/components/outerWorld/Bugs.tsx:25-42 | one wing is twelve vertices |
| Bugs.Flatten | src/components/outerWorld/Bugs.tsx:29-42 | a vertex list spreads into three floats per vertex |
| Bugs.WingGeometry.AddWing | src/components/outerWorld/Bugs.tsx:24-44 | `addWing(s)` appends the wing's 36 position floats and twelve side entries s |
| Bugs.Butterfly | src/components/outerWorld/Bugs.tsx:45-46 | the butterfly has 24 vertices |
| Bugs.BuildGeometry | src/components/outerWorld/Bugs.tsx:21-51 | the buffers hold both wings' floats; side is 1 for the first 12 vertices and −1 for the last 12 |
| Bugs.ButterflyMirror | src/components/outerWorld/Bugs.tsx:25-46 | the second wing mirrors the first: same x and y, z negated, vertex by vertex |
| Bugs.WingsMirror | src/components/outerWorld/Bugs.tsx:25-28 | the two wings' vertices mirror each other across z |
| Bugs.Lum | src/components/outerWorld/Bugs.tsx:63-70 | lum is in [0,1]; 0 when u or v is off [0,1]; otherwise the red value at (u,v) |
| Random.Centred | src/components/outerWorld/Bugs.tsx:76-77 | `(r − 0.5)·w` lies in [−w/2, w/2) for a draw r in [0,1); the grass jitter at src/Grass.tsx:151-152 is the same map |
| Bugs.BugField.constructor | src/components/outerWorld/Bugs.tsx:54-55 | offsets has 3·count zeros and phases count zeros |
| Bugs.BugField.WriteSlot | src/components/outerWorld/Bugs.tsx:79-83 | slot i gets x, height, z and phase; no other entry changes |
| Bugs.BugField.TryOne | src/components/outerWorld/Bugs.tsx:75-84 | one loop trip: accepted iff `lum` under the two position draws reaches the threshold; the bug and the draws taken (2 or 4) are `BugTrial`'s, and an accepted one becomes bug `placed`; earlier bugs keep their slots, later slots keep their values |
| Bugs.BugField.Place | src/components/outerWorld/Bugs.tsx:60-85 | no mask: no draws and nothing written; otherwise the bugs written, the tries used and the draws taken are `BugScatter`'s; placed ≤ count, tries ≤ 20·count, the budget spent whenever short; slots below placed satisfy lum ≥ threshold and the position, height and phase bounds; later slots keep their values |
| Bugs.BugField.Step | src/components/outerWorld/Bugs.tsx:75-84 | one counted try keeps the remaining `BugScatter` from the new state equal to the whole one, with the written slots holding the bugs kept so far |
| Bugs.TrialPlaced | src/components/outerWorld/Bugs.tsx:76-83 | every candidate the reference trial keeps is `Placed` |
| Bugs.BugScatterBounds | src/components/outerWorld/Bugs.tsx:72-85 | the reference loop never rewrites a kept bug, keeps at most count bugs in at most 20·count tries, spends them all when short, keeps only placed bugs and only reads forward |
| Bugs.Clock.Frame | src/components/outerWorld/Bugs.tsx:144-146 | uTime grows by exactly dt |
| Names.Lower | src/components/Character.tsx:90 | lower-casing keeps the length and lowers each letter |
| Names.ContainsIffOccurs | src/components/Character.tsx:90 | `includes` holds iff the key occurs at some offset |
| Names.IgnoresNameCase | src/components/Character.tsx:90 | the test gives the same answer whatever the case of the name |
| Names.EmptyKeyMatchesAll | src/components/Character.tsx:90 | an empty head name matches every mesh |
| Animation.Action.ResetFadeInPlay | src/components/PlayerModel.tsx:74 | `reset().fadeIn(d).play()` on one action leaves it in the restarted, fading-in state |
| Animation.StopBeforeRestart | src/components/Me.tsx:129-134 | a stop before the restart makes no difference to it |
| Animation.Action.CrossFadeTo | src/components/Character.tsx:197 | `crossFadeTo(next, d)` fades this action out and next in over the same d |
| Animation.FadeOutAll | src/components/PlayerModel.tsx:73 | every action is told to fade out |
| Animation.StopAll | src/components/Me.tsx:129-131 | every present action is stopped |
| Animation.Mixer.Update | src/components/Character.tsx:204 | `mixer.update(dt)` advances the clock by dt |
| Scene.BasicProps | src/components/PlayerModel.tsx:27-41 | `toBasic` copies map, transparent, opacity, alphaTest; front side, depth write and test on, tone mapping off |
| Scene.TintedProps | src/components/Character.tsx:78-94 | the conversion keeps map, colour (white if none) and transparency, sets skinning on skinned meshes, and multiplies the colour by the brightness unless it is the head |
| Scene.TintUnlessHead | src/components/CharacterModel.tsx:97-99 | the colour is scaled iff the mesh name does not contain the head name, case-insensitively |
| Scene.CopiedProps | src/components/Me.tsx:84-91 | transparent only if the source's flag is set; vertexColors copied when the source has it |
| Scene.ArrayAsMaterial | src/components/Character.tsx:79-81 | read as one material, an array has no colour, transparency or vertex colours, and its `map` is the property written onto it or else the array's `map` method, never null (`map ?? null` at src/components/CharacterModel.tsx:87 and src/components/Me.tsx:85 reads the same) |
| Scene.ConvertTinted | src/components/Character.tsx:68-97 | every mesh gets a fresh tinted material from what its old slot reads (`SlotProps`, so a material array passes on its `map` method or the `map` written onto it); other nodes keep theirs; the traverse at src/components/CharacterModel.tsx:79-103 is the same |
| Scene.LastHeadIsLastMatch | src/components/Character.tsx:100-107 | the head is the last matching node in traversal order, or the previous head when none matches |
| Scene.FindHead | src/components/CharacterModel.tsx:106-112 | the head-finding traverse computes `LastHead` |
| Scene.SetFaceTexture | src/components/Character.tsx:153-166 | no head: nothing; else every head material shows tex; only materials that showed another texture change and are marked once; tex is marked iff some did; when every material already shows tex nothing changes, so a repeated call is a no-op (the setter at src/components/CharacterModel.tsx:144-158 is the same) |
| PlayerModel.FirstMatch | src/components/PlayerModel.tsx:59-60 | the index found is the first clip whose name contains the keyword case-insensitively; none iff no clip does |
| PlayerModel.Resolve | src/components/PlayerModel.tsx:62-66 | a role resolves to a clip name, failing only when no clip matches and the fallback index is out of range |
| PlayerModel.ClipsResolve | src/components/PlayerModel.tsx:62-66 | Idle/Walk/Run get the first matching clip, else animations[0], [1], [2] |
| PlayerModel.ThreeClipsSuffice | src/components/PlayerModel.tsx:62-66 | with three or more clips the table always exists |
| PlayerModel.ToBasicAll | src/components/PlayerModel.tsx:91 | an array of materials converts to a same-length array, elementwise |
| PlayerModel.ConvertNode | src/components/PlayerModel.tsx:85-93 | a mesh gets the shadow flags and a converted slot of fresh materials; other nodes are untouched |
| PlayerModel.Model.SetAnimation | src/components/PlayerModel.tsx:69-75 | every action fades out over 0.15 s except the state's clip, which restarts fading in over 0.15 s |
| PlayerModel.Model.StartIdle | src/components/PlayerModel.tsx:78-80 | the idle clip is reset and played; no other action changes |
| PlayerModel.Model.ConvertMaterials | src/components/PlayerModel.tsx:83-95 | the traverse converts every mesh's materials and sets its shadow flags; other nodes unchanged |
| CharacterModel.ModelFaces | src/components/CharacterModel.tsx:118-141 | the open mouth goes with idle, talking1, talking3 and twerk; closed with clap, wave and talking2 |
| CharacterModel.Handle.Clip | src/components/CharacterModel.tsx:118-141 | an entry holds the clip's action or null when missing, its table texture and speed |
| CharacterModel.Handle.Setup | src/components/CharacterModel.tsx:79-112 | materials are converted, then the head is the last matching mesh |
| CharacterModel.Handle.SetFace | src/components/CharacterModel.tsx:144-158 | every head material shows tex; `Retextured`: only materials that showed another texture change and each is marked once, tex is marked iff some did; no head leaves tex unmarked; when every material already shows tex, nothing changes, so a repeated call is a no-op |
| CharacterModel.Handle.Frame | src/components/CharacterModel.tsx:172 | the model advances its mixer by dt |
| CharacterModel.HandleTable | src/components/CharacterModel.tsx:161-169 | the exposed handle's clips carry the table's speeds and open/closed textures |
| NpcController.RestartedRunsFromStart | src/components/CharacterController.tsx:64-68 | the next clip runs from time 0, enabled, repeating, at its speed, fading in |
| NpcController.Controller.Mount | src/components/CharacterController.tsx:36-49 | no model: nothing; no idle action: actions, mixer, face materials and both textures unchanged; else idle restarts looped at its speed, other actions untouched, mixer evaluated without advancing, face `Retextured` to idle's texture with the other texture unmarked, idle becomes previous |
| NpcController.Controller.Select | src/components/CharacterController.tsx:52-74 | the clip is `dialogClip ?? idle`; missing action or same clip: actions, face materials and both textures unchanged; else next restarts fading in 0.5 s, previous fades out 0.5 s, others untouched, face `Retextured` to the clip's texture with the other texture unmarked, previous := next |
| NpcController.Controller.StartIdle | src/components/CharacterController.tsx:42-48 | the mounting steps: idle restarted looped at its speed, mixer time kept, face retextured, previous := idle |
| NpcController.Controller.SwitchTo | src/components/CharacterController.tsx:60-73 | the switching steps: next restarted fading in, previous faded out, others untouched, face retextured, previous := next |
| NpcController.Restart | src/components/CharacterController.tsx:64-68 | the restart chain leaves `Restarted`: reset, repeating, at the speed, fading in 0.5 s, playing |
| NpcController.Begin | src/components/CharacterController.tsx:42-45 | the mount chain leaves the action reset, repeating, at the speed and playing, with no fade |
| NpcController.Switch | src/components/CharacterController.tsx:64-70 | next restarts; the previous action, if any, fades out over the same 0.5 s |
| NpcController.Controller.Frame | src/components/CharacterController.tsx:77 | the controller advances the mixer by dt |
| NpcController.FrameBoth | src/components/CharacterController.tsx:77 | the source's two frame callbacks (this one and the model's at src/components/CharacterModel.tsx:172) together advance the mixer by 2·dt per frame |
| Character.Character.Select | src/components/Character.tsx:172-201 | missing action or reselect: actions, face materials and both textures unchanged; first selection plays at weight 1 with no fade or reset; a switch restarts next at weight 1 and cross-fades over 0.25 s, others untouched; whenever a clip starts the face is `Retextured` to its texture, the other texture unmarked, previous := next |
| Character.Character.Begin | src/components/Character.tsx:177-184 | first selection: played as it stands at weight 1 and the table speed, face retextured, previous := next |
| Character.Character.SwitchTo | src/components/Character.tsx:190-200 | a switch: next restarted at weight 1 fading in, previous fading out over 0.25 s, face retextured, previous := next |
| Character.PlayAsIs | src/components/Character.tsx:178-181 | enabled, weight 1 with any fade cancelled, table speed, scheduled; time not reset |
| Character.CrossFade | src/components/Character.tsx:191-198 | next from time 0 at weight 1 fading in over 0.25 s; previous fading out over the same time |
| Me.Avatar.Texture | src/components/Me.tsx:113-119 | idle shows the open mouth, clap the closed |
| Me.Avatar.Setup | src/components/Me.tsx:73-108 | every mesh gets a copied material; the head is the last plain (non-skinned) mesh whose name matches |
| Me.Avatar.Select | src/components/Me.tsx:128-146 | both actions stop, the chosen one restarts fading in 0.25 s; a single head material switches to the clip's texture, it and the texture marked only when it differed; a material array gets the texture as its own `map`, the texture marked only when that property did not hold it (at first it reads the array's `map` method); no head or no material: nothing |
| Me.Avatar.Restart | src/components/Me.tsx:129-134 | both present actions are stopped, then the chosen one is reset, fading in and playing |
| Me.Avatar.ShowFace | src/components/Me.tsx:136-145 | single material: shows the clip's texture, it and the texture marked iff it showed another; material array: its own `map` becomes the texture, marked iff that did not hold it already, so a repeat marks nothing; no head or no material: nothing |
| Me.Avatar.Frame | src/components/Me.tsx:149 | the mixer advances by dt |
| App.ViewOf | src/App.tsx:40-75 | loading screen iff loading, dialog iff dialog, intro iff introMove, input disabled iff not play |
| App.ViewConsistent | src/App.tsx:40-75 | at most one overlay; input is enabled iff no overlay and no intro |
| App.Step | src/App.tsx:25-27 | each callback sets its value unconditionally |
| App.LoadedIffReported | src/App.tsx:22-27 | assetsLoaded holds iff suspense-done has fired, and a repeat changes nothing |
| App.LoadingUntilFirstPhaseEvent | src/App.tsx:22-51 | the phase is loading iff no phase callback has fired |
| App.PhaseOfLastPhaseEvent | src/App.tsx:22-75 | after any callback sequence the phase is the one set by the last phase callback, and assets are loaded iff suspense-done fired |
| App.ClosedDialogPlays | src/App.tsx:51 | whenever closing the dialog is the last phase callback, the phase is play, input is enabled and the dialog is down |
| App.AppState.constructor | src/App.tsx:22-23 | the app starts loading with assets not loaded |
| App.AppState.HandleSuspenseDone | src/App.tsx:25-27 | sets assetsLoaded, phase unchanged |
| App.AppState.OnFinished | src/App.tsx:43 | sets introMove |
| App.AppState.OnIntroComplete | src/App.tsx:74 | sets dialog |
| App.AppState.OnClose | src/App.tsx:51 | sets play |
| App.AsWrittenStaysLoading | src/App.tsx:22-75 | with suspense-done the only callback that fires, the phase stays loading with the loading screen up and input disabled, and assets are loaded iff it fired at least once |
| App.IntendedVisit | src/App.tsx:22-75 | loading, finishing, intro and closing the dialog ends in play with input enabled and no overlay |

## Left out

- Rapier and three.js internals are not modelled. This covers rigid-body integration and colliders, `applyQuaternion`, `normalize` (a function parameter), `setFromUnitVectors`, `slerp` toward the heading, `lookAt` (recorded as a target point) and `meshGroup.position.set(0,0,0)`.
- IEEE floating point is not modelled. Dafny reals stand for JavaScript numbers and for the Float32Arrays of `Bugs.tsx`.
- I/O is not modelled: image, GLB, texture and audio loading, and `fetchBuffer`/`decodeAudioData`/`initAudio`. Masks, sounds, clips and scenes are inputs.
- React and DOM plumbing is not modelled: listener registration and cleanup, hooks, memoisation and Leva. The sliders' values are parameters.
- The shaders are not modelled. Nor are the material and texture flags outside the field mapping: `colorSpace`, `flipY`, `needsUpdate` on the map in the conversions (when the copied `map` is a material array's method, those writes land on the function), instance buffer usages and `setAttribute`.
- The intro walk-in, rotate stage and camera-preset blending do not exist in the shown controller, so they are not modelled.
- Dialog, LoadingScreen, HoverCone, Ball, World, WorldColliders, PhysicsDebugger, GpuWarmup and SuspenseDoneLogger are UI, renderer or static-data code, not logic. The Dialog and LoadingScreen props are not modelled; the mismatches between their declared props and App's calls, and the loading phase that never ends because of them, are stated above.
- Names.Lower: lower-cases ASCII letters only, not the full Unicode case mapping of `toLowerCase`.
- PlayerModel.Matches: a case-insensitive substring test, which is what `new RegExp(kw, "i")` does for the plain keywords "idle", "walk" and "run".
- Scene.ConvertTinted: a mesh without a material is converted from `NoMaterialProps`, where `"color" in src` would throw; `Me.Avatar.Setup` and `CharacterModel.Handle.Setup` share this. three.js meshes always have one.
- PlayerModel.ConvertNode: leaves a mesh without a material alone, where `toBasic(undefined)` would throw. three.js meshes always have one.
- PlayerController.Controller.Tick: writes the velocity and camera before the footstep calls, while the source makes the footstep calls first. The objects are disjoint, so the result is the same.
- Grass.MakeTile: `attempts` counts candidates drawn. The source's `attempt` ends one higher when the budget runs out and is never read afterwards.
- Bugs.BugField.Place: `tries` counts candidates drawn, as in Grass.MakeTile. The `console.warn` on zero placements is not modelled.
- Bugs.BugField.Place: the phase is stored in units of π, so its bound [0, 2) stands for [0, 2π).
- Grass.Candidate: the blade yaw is stored in units of π, so `turn` in [−½, ½) stands for a yaw in [−π/2, π/2).
- Bugs.Lum: requires a positive `area`, which the source assumes (the default is positive).
- Animation.Action: the mixer's weight interpolation over time and clip looping are not modelled. A fade is recorded as the one requested, and `time` only resets.
- Me.Avatar.ShowFace: a head with no material changes nothing, where `mat.map` at `src/components/Me.tsx:139` would throw. three.js meshes always have one.
- Me.Avatar.Select: the face texture's `colorSpace` write is not modelled, nor the `needsUpdate` written onto a material array (it marks no material).
- Me.Avatar.ShowFace: the `map` written onto a material array is recorded in the head's own slot, so another mesh holding the same array object does not see it.
- Audio: gain nodes, volumes, buffers and `source.start/stop/disconnect` are not modelled. A loop is its state triple; a one-shot counts the sources it started.
- Audio.Resume: sets the context running at once. `ctx.resume()` at `src/utils/audioManager.ts:24` returns a promise, and the state changes when it settles.
- Audio.UnlockAudioContext: the registrations are a set of events. Calling it twice while suspended adds two separate closure pairs in the source (`src/utils/audioManager.ts:23-29`), and each resume removes only its own pair; the set merges them.
