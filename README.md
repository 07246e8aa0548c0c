# Solar system renderers — a Dafny model

The repository holds three Vulkan applications that draw the solar system:

- **SolarSimulator** flies a spaceship-style camera through a fixed scene. The scene has a sun, eight planets, the moon, Saturn's ring and a skybox.
- **MeshLoader** is the same flight model without the ring. Its speed keys are edge-triggered.
- **SolarSystem** reads its planets from a data file and builds each planet and the sun as a procedural sphere. It draws them inside a skybox cube and steers a mouse-look camera. The arrow keys change a time scale.

This project models the per-frame logic of the three applications and proves properties about it:

- the recorded Vulkan commands;
- the uniform writes;
- the camera and speed state machines;
- the procedural mesh generators.

Vulkan, GLFW and glm are not modelled as libraries; only what the programs ask of them is. Matrices are symbolic terms (`Graphics.Matrix`). Trigonometric vectors are kept as the arguments they are built from (`SolarSystem.Vector3`). A recorded command buffer is a list of `Graphics.Command`s. What that list means is given by replaying it (`Graphics.Draws`): the result is the sequence of draws, each with the pipeline, descriptor set and mesh bound when it executes. All draw-order theorems are stated against that replay.

Files and modules:

- `graphics.dfy` (`Graphics`) holds:
  - meshes, entities, pipelines and commands;
  - the command-buffer, uniform-memory and vector classes;
  - command replay.
- `frame_rules.dfy` (`FrameRules`) holds the per-frame rules SolarSimulator and MeshLoader share:
  - velocity;
  - rotation decay;
  - the level- and edge-triggered speed keys;
  - the simulation clock;
  - the P/I key latch;
  - the camera frame.
- `draw_order.dfy` (`DrawOrder`) holds:
  - the guarded draw sequence and uniform writes of SolarSimulator and MeshLoader;
  - the load-time mesh checks.
- `solar_simulator.dfy` (`SolarSimulator`) and `mesh_loader.dfy` (`MeshLoader`) hold the application classes and their whole-frame functions.
- `solar_system.dfy` (`SolarSystem`) holds:
  - the sphere grid and the skybox table;
  - the unguarded draw sequence;
  - mouse look, the time scale and the simulation clock;
  - the application class.

Every method that changes state is proved against a function of its old state, for example `State() == Frame(old(State()), input)`. The properties are then proved about those functions, over single frames and over runs of any length.

Behaviour worth noting (the model follows the code):

- Pressing I resets only the ship velocity and the view matrix. It does not reset the rotations, the accumulated time or the speed.
- The reset becomes visible only in the next frame. `View` is copied from `ViewMatrix` before the key is handled (`FrameRules.ResetShowsNextFrame`).
- SolarSimulator's M/N speed keys are level-triggered: holding M keeps raising the speed. Only MeshLoader latches its `+`/`-` keys.
- The velocity dead zone does not always pull toward zero. For a velocity in (-0.001, 0) the two sequential guards add 0.001 and then subtract it, so the velocity never reaches zero (`FrameRules.VelocityStuck`).
- Rotation decay can oscillate. A rotation between the snap threshold and one step from zero alternates between two values forever (`FrameRules.RotationOscillates`).
- SolarSystem sizes the sun's sphere from the first planet's radius, and draws and writes without any emptiness guard.

## Model

| member | source | states |
|---|---|---|
| Graphics.ToU32 | CGProject/SolarSimulator.cpp:323 | the `uint32_t` index count passed to a draw is the size modulo 2^32, equal to it below 2^32 |
| FrameRules.Accelerate | CGProject/SolarSimulator.cpp:377-381 | thrust changes velocity only when there is input and velocity is inside [-5, 5]; the result is then clamped to [-5, 5] |
| FrameRules.VelocityStep | CGProject/SolarSimulator.cpp:376-387 | velocity stays in [-5, 5]; after thrust and clamping (`Accelerate`), a velocity of at least 0.25 in magnitude is kept, one inside the 0.25 dead zone moves 0.001 toward zero, except in (-0.001, 0], which is kept; so a ship launched from rest by a small forward thrust ends 0.001 short of 0.05·input |
| FrameRules.UpdateVelocity | CGProject/SolarSimulator.cpp:376-387 | the imperative velocity update computes `VelocityStep` |
| FrameRules.VelocitySettles | CGProject/SolarSimulator.cpp:383-387 | with no thrust, a velocity of k·0.001 inside the dead zone, of either sign, reaches exactly 0 after k frames |
| FrameRules.VelocityStuck | CGProject/SolarSimulator.cpp:383-387 | with no thrust, a velocity in (-0.001, 0) never changes |
| FrameRules.RotationStep | CGProject/SolarSimulator.cpp:389-405 | with input and the rotation inside (-1, 1), the rotation integrates 0.01·input; otherwise a nonzero rotation decays by exactly 0.01 toward zero, and a result inside ±0.001 snaps to 0; every result is 0 or at least 0.001 in magnitude; rotation stays bounded for inputs in [-1, 1] |
| FrameRules.UpdateAxis | CGProject/SolarSimulator.cpp:392-405 | the imperative per-axis update computes `RotationStep` |
| FrameRules.RotationSettles | CGProject/SolarSimulator.cpp:392-405 | with no input, a rotation of k·0.01 of either sign reaches exactly 0 after k frames |
| FrameRules.RotationOscillates | CGProject/SolarSimulator.cpp:392-405 | with no input, a rotation in [0.001, 0.009] alternates forever between itself and itself minus 0.01 |
| FrameRules.SpeedLevel | CGProject/SolarSimulator.cpp:496-501 | M raises the speed by exactly 0.05, or to 3.0 when that step would pass 3.0; N, only when M is not held, lowers it by exactly 0.05, or to 0.1 when that step would pass 0.1; no key leaves it; [0.1, 3.0] is preserved |
| FrameRules.SpeedEdge | CGProject/MeshLoader.cpp:467-483 | the key latch is set exactly when a speed key is held; speed changes only on the frame the latch was clear, and then as `SpeedLevel`; the range is preserved |
| FrameRules.SpeedChangesOncePerHold | CGProject/MeshLoader.cpp:467-483 | over any run of frames with a speed key held, the speed changes at most once, on the first frame |
| FrameRules.Advance | CGProject/SolarSimulator.cpp:509 | `time + deltaT·speed` never decreases for non-negative inputs, and grows for positive ones |
| FrameRules.ClockMonotone | CGProject/SolarSimulator.cpp:496-509 | over any run with non-negative frame times, speed stays in [0.1, 3.0] and accumulated time never decreases |
| FrameRules.DebounceStep | CGProject/SolarSimulator.cpp:455-494 | P fires exactly when held with the latch clear; I fires exactly when held, P not held, and the latch clear or owned by P; never both; with no key held and the latch clear nothing changes; a held latch is released exactly when its own key is up and no reset fires |
| FrameRules.HeldKeyBlocksActions | CGProject/SolarSimulator.cpp:455-494 | while the key owning the latch stays held, no P or I action fires and the latch is unchanged |
| FrameRules.StartCamera | CGProject/SolarSimulator.cpp:108-115 | the camera starts at rest at the home view with the latch clear |
| FrameRules.CameraFrame | CGProject/SolarSimulator.cpp:361-494 | the camera frame: rotations follow `RotationStep`; the view is the old view matrix rotated, then moved by the new velocity; the latch, print and reset are those of `DebounceStep`; a reset zeroes velocity and restores home; print and reset never both fire |
| FrameRules.ResetShowsNextFrame | CGProject/SolarSimulator.cpp:449-494 | after a reset frame, the next frame's view starts from the home view at rest |
| DrawOrder.RecordBoundDraw | CGProject/SolarSimulator.cpp:338-342 | records descriptor-set bind, mesh bind and indexed draw, in that order |
| DrawOrder.RecordPlanets | CGProject/SolarSimulator.cpp:337-343 | the planet loop records the guarded block of planets 0..7 in index order |
| DrawOrder.FrameDrawsInSceneOrder | CGProject/SolarSimulator.cpp:318-359 | replaying a frame performs the draws of skybox, sun, planets 0..7, moon, ring, in that order; each has its own pipeline, set and mesh, and entities with empty meshes are skipped |
| DrawOrder.FrameBindsCurrentImage | CGProject/SolarSimulator.cpp:318-359 | every descriptor-set bind of the frame targets slot `currentImage` |
| DrawOrder.LoadedFrameDrawsEverything | CGProject/SolarSimulator.cpp:318-359 | once every mesh is loaded, a frame performs exactly 12 draws (11 without the ring), the k-th being that of the k-th entity |
| DrawOrder.WritePlanets | CGProject/SolarSimulator.cpp:522-547 | the uniform loop writes the sets of planets 0..7 in order |
| DrawOrder.AnchorPlanet | CGProject/SolarSimulator.cpp:550-580 | the moon is placed from planet 2, which is Earth, and the ring from planet 5, which is Saturn |
| DrawOrder.PlanetWritesShape | CGProject/SolarSimulator.cpp:522-547 | the planet loop writes exactly n sets, the k-th being planet k's |
| DrawOrder.FrameWritesEachSetOnce | CGProject/SolarSimulator.cpp:513-603 | a frame writes the set of every scene entity exactly once, nothing else, all at slot `currentImage` |
| DrawOrder.PlanetCheckPasses | CGProject/SolarSimulator.cpp:195-201 | the planet load loop throws for no planet exactly when every planet mesh is non-empty |
| DrawOrder.LoadCheckPasses | CGProject/SolarSimulator.cpp:187-222 | loading succeeds exactly when every mesh of the scene is non-empty |
| SolarSimulator.Initial | CGProject/SolarSimulator.cpp:39-115 | start state: speed 0.75, time 0, camera at rest at home (0, 10, 100) |
| SolarSimulator.Frame | CGProject/SolarSimulator.cpp:361-509 | one frame: invariants kept; time never decreases for non-negative deltaT; closing is sticky and set by ESC; speed is level-triggered; time advances by deltaT·new speed; the camera follows `CameraFrame` |
| SolarSimulator.RunKeepsInvariant | CGProject/SolarSimulator.cpp:361-509 | over any run of frames with non-negative deltaT: speed in [0.1, 3.0], velocity in [-5, 5], the latch consistent, time never decreasing, closing never undone |
| SolarSimulator.Simulator.constructor | CGProject/SolarSimulator.cpp:39-115 | a new simulator is in the initial state |
| SolarSimulator.Simulator.LocalInit | CGProject/SolarSimulator.cpp:187-222 | loading fails with the message of the first empty mesh in load order; on success the scene is the loaded one |
| SolarSimulator.Simulator.PopulateCommandBuffer | CGProject/SolarSimulator.cpp:318-359 | appends exactly the frame's command list to the buffer |
| SolarSimulator.Simulator.WriteUniforms | CGProject/SolarSimulator.cpp:513-603 | writes sun, planets 0..7, moon, ring and skybox at slot `currentImage` |
| SolarSimulator.Simulator.MoveCamera | CGProject/SolarSimulator.cpp:376-453 | velocity and rotations follow their step functions; the view matrix is rotated, translated by the new velocity, and copied to `View` |
| SolarSimulator.Simulator.HandleLatchKeys | CGProject/SolarSimulator.cpp:455-494 | the latch follows `DebounceStep`; a reset zeroes velocity and restores the home view; nothing else changes |
| SolarSimulator.Simulator.UpdateCamera | CGProject/SolarSimulator.cpp:361-494 | the camera fields become `CameraFrame` of the old ones |
| SolarSimulator.Simulator.UpdateUniformBuffer | CGProject/SolarSimulator.cpp:361-603 | the whole state becomes `Frame` of the old state, invariants kept, and the frame's uniform writes are made |
| MeshLoader.Initial | CGProject/MeshLoader.cpp:37-110 | start state: speed 0.75 with the latch clear, time 0, camera at rest at home (0, 30, 100) |
| MeshLoader.Frame | CGProject/MeshLoader.cpp:335-490 | one frame as in SolarSimulator, but the speed follows the edge-triggered `SpeedEdge` |
| MeshLoader.RunKeepsInvariant | CGProject/MeshLoader.cpp:335-490 | over any run with non-negative deltaT: ranges and latch kept, time never decreasing, closing sticky |
| MeshLoader.HeldSpeedKeyActsOnce | CGProject/MeshLoader.cpp:467-483 | over a run with a speed key held every frame, the speed changes at most once, on the first frame if the latch was clear |
| MeshLoader.Loader.constructor | CGProject/MeshLoader.cpp:37-110 | a new loader is in the initial state |
| MeshLoader.Loader.LocalInit | CGProject/MeshLoader.cpp:186-215 | loading fails with the first empty mesh's message; on success the ringless scene is the loaded one |
| MeshLoader.Loader.PopulateCommandBuffer | CGProject/MeshLoader.cpp:299-333 | appends the frame's command list: skybox, sun, planets, moon, with no ring |
| MeshLoader.Loader.WriteUniforms | CGProject/MeshLoader.cpp:495-563 | writes sun, planets 0..7, moon and skybox at slot `currentImage` |
| MeshLoader.Loader.MoveCamera | CGProject/MeshLoader.cpp:349-425 | as in SolarSimulator |
| MeshLoader.Loader.HandleLatchKeys | CGProject/MeshLoader.cpp:427-466 | as in SolarSimulator, with home (0, 30, 100) |
| MeshLoader.Loader.HandleSpeedKeys | CGProject/MeshLoader.cpp:467-483 | speed and key latch become `SpeedEdge` of the old ones |
| MeshLoader.Loader.UpdateCamera | CGProject/MeshLoader.cpp:335-466 | the camera fields become `CameraFrame` of the old ones |
| MeshLoader.Loader.UpdateUniformBuffer | CGProject/MeshLoader.cpp:335-563 | the whole state becomes `Frame` of the old state, invariants kept, and the frame's uniform writes are made |
| SolarSystem.GridVertex | CGProject/SolarSystem.cpp:241-251 | the texture coordinate of grid vertex (y, x) is (x/64, y/32), inside [0,1]²; u is 0 exactly on the first column, v is 1 exactly on the last ring |
| SolarSystem.PlanetVertices | CGProject/SolarSystem.cpp:239-253 | the grid has (32+1)·(64+1) vertices |
| SolarSystem.CornerIndex | CGProject/SolarSystem.cpp:257-264 | every corner index names a grid vertex |
| SolarSystem.PlanetIndices | CGProject/SolarSystem.cpp:255-265 | the index list has 6·32·64 = 12288 entries |
| SolarSystem.PlanetVertexAt | CGProject/SolarSystem.cpp:239-252 | the vertex of cell (y, x) sits at position y·65 + x |
| SolarSystem.PlanetIndexAt | CGProject/SolarSystem.cpp:255-265 | index (y·64 + x)·6 + c is corner c of cell (y, x) |
| SolarSystem.CreatePlanetMesh | CGProject/SolarSystem.cpp:235-266 | appends exactly the grid vertices and the index list to the caller's vectors, leaving their earlier contents in place |
| SolarSystem.CellTrianglesShareDiagonal | CGProject/SolarSystem.cpp:257-264 | the two triangles of a cell share the diagonal (y+1)·65+x, y·65+x+1, and together use exactly the cell's four corners |
| SolarSystem.PlanetIndicesCoverGrid | CGProject/SolarSystem.cpp:255-265 | the indices form whole triangles, each names a grid vertex, and every grid vertex is used |
| SolarSystem.PlanetModel | CGProject/SolarSystem.cpp:235-266 | a planet model has 2145 vertices and 12288 indices, all in range |
| SolarSystem.SkyboxVertices | CGProject/SolarSystem.cpp:273-282 | eight cube corners at ±1000 on every axis, each with a zero normal |
| SolarSystem.SkyboxIndices | CGProject/SolarSystem.cpp:284-291 | 36 indices (12 triangles), all below 8, using every vertex |
| SolarSystem.SkyboxFacesCoverCube | CGProject/SolarSystem.cpp:284-291 | each group of six indices lies in one face plane, and the six groups cover the six different faces |
| SolarSystem.SkyboxModel | CGProject/SolarSystem.cpp:268-296 | the skybox model has 8 vertices and 36 indices, all in range |
| SolarSystem.PlanetDrawsReplay | CGProject/SolarSystem.cpp:168-174 | the planet loop performs the draws of planets 0..n-1 in order under the planet pipeline |
| SolarSystem.SystemFrameDrawsInOrder | CGProject/SolarSystem.cpp:155-175 | replaying a frame performs exactly 2 + n draws, the skybox, the sun, then planets 0..n-1, each with its own set at `currentImage` |
| SolarSystem.WritesMatchDraws | CGProject/SolarSystem.cpp:155-233 | the k-th uniform write of a frame targets the set the k-th draw binds, at the same slot, with no set written twice |
| SolarSystem.AdvanceSplits | CGProject/SolarSystem.cpp:179 | advancing the simulation clock over two frames equals advancing it once over their total time |
| SolarSystem.SimulationTimeTelescopes | CGProject/SolarSystem.cpp:75-82 | with a fixed time scale, simulation time after any run equals the start plus the wall-clock time since the last frame, scaled |
| SolarSystem.ScaleTime | CGProject/SolarSystem.cpp:339-342 | UP alone grows a positive scale, DOWN alone shrinks it, both or neither leave it; a positive scale stays positive |
| SolarSystem.ScaleRunCounts | CGProject/SolarSystem.cpp:339-342 | after any run, scale·1.1^(DOWN frames) = initial·1.1^(UP frames), and a positive scale stays positive |
| SolarSystem.ClampPitch | CGProject/SolarSystem.cpp:370-373 | the two sequential guards clamp pitch to [-89, 89] |
| SolarSystem.Look | CGProject/SolarSystem.cpp:352-373 | pitch ends in [-89, 89]; lastX/lastY end at the cursor; the latch is cleared; the first event leaves yaw unchanged and only clamps pitch; later events turn yaw by the scaled horizontal offset and set pitch to the clamp of pitch plus the scaled vertical offset (last y − new y) |
| SolarSystem.YawFollowsCursor | CGProject/SolarSystem.cpp:352-373 | over any run of cursor events, yaw turns by the scaled total horizontal travel, pitch stays clamped, and the last position is remembered |
| SolarSystem.InitialisedFrameDrawsWholeMeshes | CGProject/SolarSystem.cpp:19-73 | after initialisation, a frame draws 36 indices for the skybox and 12288 for the sun and each planet |
| SolarSystem.SolarSystem.constructor | CGProject/headers/SolarSystem.hpp:66-69 | no planets and no models, simulation time 0, time scale 1 |
| SolarSystem.SolarSystem.LocalInit | CGProject/SolarSystem.cpp:19-73 | planets appended; the camera at (0, 50, 100) facing -z with yaw -90, pitch 0 and the cursor at the window centre; one sphere model per planet; the sun sized by the first planet; the skybox cube |
| SolarSystem.SolarSystem.InitCamera | CGProject/SolarSystem.cpp:23-35 | the camera initial values |
| SolarSystem.SolarSystem.CreatePlanetModels | CGProject/SolarSystem.cpp:37-55 | one sphere model per planet, in planet order, appended |
| SolarSystem.SolarSystem.CreateSunModel | CGProject/SolarSystem.cpp:57-66 | the sun model is the sphere of the first planet's radius |
| SolarSystem.SolarSystem.CreateSkyboxMesh | CGProject/SolarSystem.cpp:268-296 | the skybox model is the cube table |
| SolarSystem.SolarSystem.PopulateCommandBuffer | CGProject/SolarSystem.cpp:155-175 | appends exactly the frame's command list, with no emptiness guard |
| SolarSystem.SolarSystem.RecordHead | CGProject/SolarSystem.cpp:156-168 | records the skybox block, the sun block and the planet pipeline bind |
| SolarSystem.SolarSystem.UpdateDeltaT | CGProject/SolarSystem.cpp:75-82 | deltaT is the clock reading minus the last one, which becomes the reading |
| SolarSystem.SolarSystem.UpdateUniformBuffer | CGProject/SolarSystem.cpp:177-233 | simulation time advances by deltaT·timeScale and never decreases for a clock that does not go back; writes skybox, sun and every planet at `currentImage` |
| SolarSystem.SolarSystem.WriteUniforms | CGProject/SolarSystem.cpp:191-232 | writes skybox, sun and planets 0..n-1 in order |
| SolarSystem.SolarSystem.ProcessInput | CGProject/SolarSystem.cpp:325-342 | ESC sets the close flag; the time scale becomes `ScaleTime` of the old one and stays positive |
| SolarSystem.SolarSystem.MouseCallback | CGProject/SolarSystem.cpp:352-380 | the mouse fields become `Look` of the old ones, pitch stays in [-89, 89], and the camera front is the heading of the new yaw and pitch |

## Left out

- Vulkan and GLFW resource code is not modelled: pipelines, descriptor-set layouts and sets, textures, vertex descriptors, buffers, window set-up, cleanup and resize. A draw or bind is represented only by the command it records.
- Matrix and vector arithmetic (glm `rotate`, `translate`, `scale`, `perspective`, `lookAt`, `normalize`) and all trigonometry are kept symbolic. So are the orbital positions of planets, moon and ring, and the skybox's `mat3(View)` stripping. The uniform contents are therefore not modelled; only which set is written at which slot is.
- JSON and model-file loading are not modelled (`loadSolarSystemData`, `loadPlanetData`, glTF/OBJ loading). The loaded meshes and planet records are parameters.
- The controller input (`getSixAxis`) and key states are parameters of each frame. SolarSystem's high-resolution clock is a parameter of `UpdateDeltaT`.
- Console output is not modelled: the speed indicator and the debug prints of the P key.
- Floating-point rounding is not modelled; all quantities are reals. In particular, `SolarSystem.ScaleTime` holds a scale unchanged when both arrow keys are held, while in `float` arithmetic ×1.1 then ÷1.1 may differ by one rounding step.
- SolarSystem's WASD camera movement (SolarSystem.cpp:329-337) is not modelled. It moves `cameraPos` along the normalised, trigonometric front vector, which the model keeps symbolic.
- The window close request is a boolean field set by ESC.
- SolarSimulator's and MeshLoader's `View` matrix is uninitialised in the source until the first frame; the model starts it at the identity.
- The static locals `debounce` and `curDebounce` of `updateUniformBuffer` are modelled as fields of the application object.
- SolarSystem.SolarSystem.constructor: fields without an in-class default (camera, mouse, clock) start at zero here; in the source they hold indeterminate values until `localInit` sets them.
- SolarSystem.SolarSystem.PopulateCommandBuffer requires at least as many planet models as planets; the source indexes `planetModels[i]` for every planet without a check. `planetDS` is likewise assumed to hold a set per planet.
- SolarSystem.SolarSystem.LocalInit requires at least one planet, because the source reads `planets[0]` for the sun's radius.
