# KoolVFX core in Dafny

KoolVFX is a three.js slideshow of particle effects. The user cycles through a
list of effect systems built from a JSON configuration, and an orbit camera
follows the one on show. This project models the logic behind that:

- **The orbit camera** (`CameraManager`): its state, the wheel and pointer
  handlers, and the per-frame `update()`. That update eases an overshot angle
  back into bounds, places the camera on its orbit, pulls it in front of the
  nearest obstacle hit, and smooths its motion.
- **The particle engine** (`ParticleSystem`): ageing, respawning, drift,
  fading and the position buffer. The seven spawn strategies (the base one and
  the explosion, fountain, smoke, firework, starburst and trail presets) and the
  six preset factories.
- **The ring-trail effect** (`RingTrailSystem`): particles turning on a ring of
  radius 1.2, each dragging a bounded trail of its most recent positions.
- **The mesh and dust systems** (`MeshParticleSystem`, `DustParticleSystem`):
  points sampled on a mesh's faces by the barycentric fold of `geometry.js`,
  and dust that drifts and wraps around inside a box.
- **The slideshow in `main.js`**:
  - the type registry and the instantiation of the configured systems;
  - left and right navigation;
  - the rule that exactly one system is in the scene;
  - the per-frame update of every system and dust cloud;
  - the x re-centring of the selected system and the camera update that
    follows it;
  - the collision list built from the scene graph.

How the model stands in for the JavaScript:

- **Numbers** are Dafny `real`s.
- **`Math.random` results** are passed in as `Draw` records of up to three
  values in [0, 1), in call order.
- **`Math.sin`, `cos`, `cbrt`, `acos`, `sqrt` and `PI`** are the fields of a
  `MathLib` record. `Vectors.Sound` lists the only facts the proofs use about
  them:
  - sin² + cos² = 1;
  - cbrt maps [0, 1) into [0, 1);
  - sqrt is a non-negative square root;
  - π > 0.
- **The raycast** is a list of hit distances, nearest first.
- **What a focus accessor returns** in a frame is a parameter.
- **The scene graph** (`SceneGraph.Scene`) is a set of renderables.
- **A collision array** (`SceneGraph.MeshList`) is a sequence.
- **Imperative source becomes imperative Dafny.**
  - Classes with fields whose methods state their `modifies` frames.
  - `Float32Array` buffers become `array<real>`.
  - Loops carry their invariants.

Each method is tied to specification functions: `Particles.Step`,
`RingTrails.AdvanceParticle`, `RingTrails.PushTrail`, `Orbit.Ease`,
`Orbit.FinalTarget` and `MeshParticles.WrapIntoBox`. The lemmas prove what the
code promises about those functions over any number of frames.

## Model

| member | source | states |
|---|---|---|
| Cameras.CameraManager.constructor | src/cameraManager.js:5-47 | Every field starts at its configured value or its default. Defaults: yaw and pitch 0°, distance 5, sensitivity 0.01, pitch band [-30°, 30°], distance band [2, 20], yaw band [-360°, 360°], no overshoot margin, smoothing 0.12, decay 0.15, no recorded deviation, not dragging, collision radius 0.25. An omitted collision list is a new empty list; a given one is kept. Angles are converted from degrees. |
| Cameras.OrDefault | src/cameraManager.js:21-28 | `value \|\| fallback`: a key that is absent or set to 0 takes the fallback; any other value is kept. |
| Cameras.CameraManager.OnWheel | src/cameraManager.js:50-57 | The new distance is the old one plus deltaY·0.01, clamped to [minDistance, maxDistance]. When that range is ordered, the distance lies inside it. Nothing else changes. |
| Cameras.CameraManager.OnPointerDown | src/cameraManager.js:58-71 | Button 0, a touch or a pen starts a drag and records the pointer. Any other event leaves the drag state and the recorded pointer unchanged. |
| Cameras.CameraManager.OnPointerUp | src/cameraManager.js:72-76 | Whatever the prior state, the camera is no longer dragging. |
| Cameras.CameraManager.OnPointerMove | src/cameraManager.js:77-109 | When not dragging, nothing changes. When dragging: each deviation is computed from the unclamped angle; each angle is clamped into its overshoot band; the pointer is recorded. After a drag the angles lie in their bands, and an angle outside its hard bounds always has a non-zero deviation. |
| Orbit.Clamp | src/cameraManager.js:104-105 | `Math.max(lo, Math.min(hi, x))`: inside an ordered range the value is kept; below it gives lo, above it hi. The result always lies in the range. |
| Orbit.Deviation | src/cameraManager.js:89-103 | The deviation is 0 exactly when the angle is within the hard bounds. It is negative exactly below the lower bound and positive exactly above the upper one. |
| Orbit.ClampIntoBand | src/cameraManager.js:84-105 | A clamped drag stays in the overshoot band, and it lands outside the hard bounds only when the recorded deviation is non-zero. |
| Orbit.Ease | src/cameraManager.js:114-133 | An angle inside its bounds, or on an axis with no deviation, is unchanged. An active angle below min moves strictly closer to min without passing it: either the gap shrinks to 0.85 of its size or it snaps onto min. The case above max is symmetric. |
| Orbit.EaseBelowProgress | src/cameraManager.js:114-121 | After k idle frames an angle below min is either exactly min, or it is 0.85^k of the original gap below min and still at least 0.001 away. |
| Orbit.DecayBound | src/cameraManager.js:116 | 0 < 0.85^k ≤ 1 and 0.85^k·(1 + 0.15k) ≤ 1. This bounds the shrinking gap. |
| Orbit.EaseConverges | src/cameraManager.js:114-133 | An angle left outside its hard bounds reaches the nearer bound exactly after any k idle frames with 0.15·k ≥ 1000·gap. |
| Orbit.EaseNMirror | src/cameraManager.js:114-133 | The correction above max is the mirror image of the correction below min. |
| Orbit.OrbitPointDistance | src/cameraManager.js:136-143 | The spherical candidate `lerpTarget` lies at exactly `distance` from the focus. |
| Orbit.FinalTarget | src/cameraManager.js:145-168 | Without colliders, without hits, or with the nearest hit at least distance − radius away, the target is the candidate itself. |
| Orbit.CollisionNeverClips | src/cameraManager.js:158-166 | When obstructed, the target lies exactly hit − radius from the focus. If the radius is non-negative and the hit is at least that far out, the target is strictly nearer than `distance`. |
| Orbit.SmoothingShrinksGap | src/cameraManager.js:169 | One `lerp(finalTarget, 0.12)` leaves 0.88 of the gap, so the squared distance to the target shrinks by the factor 0.7744. |
| Vectors.Lerp | src/cameraManager.js:169 | The remaining gap to the target is the old gap scaled by 1 − t. At t = 0 the point stays; at t = 1 it reaches the target. |
| Vectors.NormalizeIsUnit | src/cameraManager.js:149-151 | A non-zero direction normalises to unit length. |
| Cameras.CameraManager.Update | src/cameraManager.js:112-171 | The post-state is `Updated`. Each angle takes one `Ease` step while its deviation is non-zero. The candidate is the orbit point about the current focus. The camera moves 0.12 of the way to `FinalTarget` and looks at the focus. Distance, drag state and the deviations are unchanged, so the deviations are never cleared. The band and the tracking invariants are preserved. |
| Cameras.CurrentFocus | src/cameraManager.js:136 | Until `updateFocusPosition` is called, the focus is whatever the accessor returns in the frame. |
| Cameras.CameraManager.UpdateFocusPosition | src/cameraManager.js:173-175 | From now on the focus is the given fixed point. Nothing else changes. |
| Particles.ParticleSystem.constructor | src/lib/particle-base.js:5-36 | Defaults: origin and velocity zero, lifetime 1, colour 0xffffff, size 0.05, particleCount 100, age 0, alpha 1. The base class starts with no particles. Any lifetime is accepted, 0 included. A preset class calls `initParticles`, so its particles are spawned on return, and in range when the lifetime is not negative. |
| Spawns.SpawnPosition | src/lib/particle-base.js:39-51 | Each variant's spawn is taken about the current origin. The firework, starburst and trail variants return the origin itself. The fountain and smoke variants keep the origin's height. |
| Spawns.BallRadius | src/lib/particle-base.js:45 | For a draw in [0, 1), the radial distance scale·cbrt(draw) lies in [0, scale). |
| Spawns.BallPointDistance | src/lib/particle-base.js:41-50 | The spherical-coordinate spawn lies at exactly its radial distance from the origin. |
| Spawns.SpawnWithinScale | src/lib/particle-base.js:39-51 | Every spawn lies at a distance ρ from the current origin with 0 ≤ ρ below the variant's bound: 0.5 for the base, 0.3 explosion, 0.2 fountain, 0.25 smoke. The fixed variants spawn at the origin. |
| Particles.ParticleSystem.InitParticles | src/lib/particle-base.js:53-73 | The system has particleCount particles and a fresh buffer of 3·particleCount slots holding their positions. Particle i is spawned from draw i with the system velocity and lifetime, age 0 and alpha 1. Any lifetime is accepted. |
| Particles.Step | src/lib/particle-base.js:78-94 | A particle that would not expire: age + dt, same velocity, position + velocity·dt. An expiring particle: age 0, the system velocity, position = the fresh spawn + velocity·dt. The lifetime is kept. Alpha is 1 − age/lifetime for a non-zero lifetime, and no number for a zero one (the source's NaN or infinity). With dt ≥ 0, an age in [0, lifetime] stays there, and with a non-zero lifetime alpha lies in [0, 1]. |
| Particles.ParticleSystem.Update | src/lib/particle-base.js:75-97 | Every particle takes one `Step`, respawning about the current origin, and its slot holds its new position. The count, the buffer and the other fields are unchanged. The age range is preserved for dt ≥ 0. |
| Particles.ParticleSystem.StepParticle | src/lib/particle-base.js:78-94 | One loop pass for particle i: it becomes its `Step`, respawning from its draw, and its slot holds its new position. Every other particle and slot is unchanged. |
| Particles.RunKeepsAgeInRange | src/lib/particle-base.js:79-91 | Over any number of frames with non-negative steps, the age stays in [0, lifetime]. Unless the lifetime is 0, alpha stays in [0, 1]. |
| Particles.RunKeepsSharedVelocity | src/vfx/starburst.js:6-16 | A particle moving with the system velocity keeps it forever; no per-particle velocity is ever assigned. |
| Particles.RunStaysOnVerticalLine | src/vfx/firework.js:17-26 | With a vertical system velocity and every spawn on the origin's vertical line, a particle keeps the origin's x and z over any number of frames. |
| Particles.ParticleSystem.MoveTo | src/main.js:457-458 | Re-assigning the origin changes only the origin, so only later spawns move. |
| Particles.CreateExplosionVFX | src/vfx/explosion.js:26-35 | Colour 0xff6600, size 0.15, lifetime 1.0, velocity (0, 0.5, 0), 80 particles. The particles are spawned on construction and in range. |
| Spawns.BallSpawnWithin | src/vfx/explosion.js:11-23 | A ball spawn of scale s lies within distance ρ < s of the origin (s = 0.3 for the explosion, which has no radius option). |
| Particles.CreateFountainVFX | src/vfx/fountain.js:23-32 | Colour 0x66ccff, size 0.09, lifetime 1.5, velocity (0, 2.5, 0), 100 particles, all spawned at the origin's height. |
| Spawns.DiskSpawnWithin | src/vfx/fountain.js:11-20 | A disk spawn of scale s lies at distance v·s < s from the origin (s = 0.2 for the fountain, 0.25 for smoke). |
| Spawns.CirclePointDistance | src/vfx/smoke.js:15-19 | The horizontal offset radius·(cos a, sin a) lies at exactly that radius from the origin. |
| Particles.CreateSmokeVFX | src/vfx/smoke.js:23-32 | Colour 0x888888, size 0.18, lifetime 2.0, velocity (0, 0.5, 0), 60 particles, all spawned at the origin's height. |
| Particles.CreateFireworkVFX | src/vfx/firework.js:7-26 | Colour 0xffffff, size 0.12, lifetime 1.2, velocity (0, 2.5, 0), 120 particles, every one at the origin with age 0. |
| Particles.CreateStarburstVFX | src/vfx/starburst.js:7-27 | Colour 0xffff66, size 0.13, lifetime 1.0, velocity (0, 0.5, 0), 40 particles, every one at the origin with the shared velocity. |
| Particles.CreateTrailVFX | src/vfx/trail.js:7-26 | Colour 0x00ccff, size 0.09, lifetime 1.2, velocity (0, 1.5, 0), 80 particles, every one at the origin with age 0. |
| RingTrails.RingTrailSystem.constructor | src/vfx/ringtrail.js:7-48 | Defaults: colour 0xffffff, size 0.15, trailLength 30, 10 particles. Particle i sits on the ring at angle (i/n)·2π with speed 1.2 and age 0. Its trail holds just its spawn point. Each particle has its own distinct trail line. |
| RingTrails.RingTrailSystem.InitParticles | src/vfx/ringtrail.js:51-74 | Every particle is on the ring at the ring speed, each trail holds exactly that particle's spawn point, and the fresh buffer holds the positions. |
| RingTrails.SpawnAnglesSpread | src/vfx/ringtrail.js:63 | The spawn angles increase strictly with the index, from 0 up to below 2π. |
| RingTrails.RingPointOnRing | src/vfx/ringtrail.js:77-85 | A ring point keeps the origin's height and lies at distance 1.2 from the origin. |
| RingTrails.RingTrailSystem.Advance | src/vfx/ringtrail.js:91-125 | One loop pass for particle i: it takes one `AdvanceParticle` and its trail one `PushTrail`. Its trail geometry gets a fresh buffer showing the trail and a matching draw range, and its slot is rewritten. Every other particle, trail, slot and trail buffer is unchanged. |
| RingTrails.RingTrailSystem.Update | src/vfx/ringtrail.js:87-129 | Every particle advances about the current origin and every trail records the new position. Each trail buffer and draw range shows its trail, and each point slot shows its particle. Afterwards every particle is on the ring, at the ring speed, with a bounded trail. |
| RingTrails.AdvanceAllTurnsSteadily | src/vfx/ringtrail.js:93-100 | Over any run of frames the angle grows by 0.6 per unit of time. The speed stays 1.2, the age is untouched, and the particle stays on the ring at radius 1.2. |
| RingTrails.PushTrail | src/vfx/ringtrail.js:108-111 | The trail grows by one point while it fits in trailLength; otherwise its length stays the same. |
| RingTrails.PushTrailKeepsNewest | src/vfx/ringtrail.js:108-111 | A push leaves a suffix of old trail + [p] that ends in p. |
| RingTrails.PushTrailBounded | src/vfx/ringtrail.js:108-111 | A trail with between 1 and max(trailLength, 1) points stays in that range after a push. |
| RingTrails.PushAllIsRecentWindow | src/vfx/ringtrail.js:108-111 | After any number of pushes, the trail is exactly the most recent max(trailLength, 1) points recorded. |
| RingTrails.PackPositions | src/vfx/ringtrail.js:114-119 | The fresh trail buffer holds 3 slots per trail point, each holding that point. |
| RingTrails.RingTrailSystem.AddToScene | src/vfx/ringtrail.js:131-136 | The scene gains the points and every trail line, and nothing else. |
| RingTrails.RingTrailSystem.RemoveFromScene | src/vfx/ringtrail.js:138-143 | The scene loses the points and every trail line, and nothing else. |
| RingTrails.RingTrailSystem.MoveTo | src/main.js:458 | Only the origin changes. The particles stay where they are until the next update moves them onto the ring about the new origin. |
| MeshParticles.MeshParticleSystem.constructor | src/vfx/meshParticleSystem.js:11-20 | Defaults: colour 0xffcc00, size 0.12, count 1. On a well-formed mesh the buffer holds 3·count slots, and slot i holds the sample drawn with draw i. |
| MeshParticles.CreatePoints | src/vfx/meshParticleSystem.js:30-73 | The fresh buffer holds one sample per draw, in draw order. |
| MeshParticles.FaceIndexInRange | src/vfx/meshParticleSystem.js:33-51 | For a draw in [0, 1) and a whole, non-zero number of faces, the face index f satisfies 0 ≤ f and 3f + 2 < entries. This holds for an index array and for a plain vertex list. |
| MeshParticles.SampleLiesOnAFace | src/vfx/meshParticleSystem.js:32-68 | On a well-formed mesh every sample exists. It is the fold of `geometry.js` applied to the three corners of the chosen face. |
| MeshParticles.SampleInsideBox | src/vfx/meshParticleSystem.js:53-68 | If every vertex lies in a box, so does every sampled point. |
| MeshParticles.DustParticleSystem.constructor | src/vfx/meshParticleSystem.js:101-155 | Defaults: count 1000, colour 0xffffff, size 0.04, speed 0.02. Slot i holds the box lerp of draw i. There are exactly count velocities, the jitter of the velocity draws. An ordered box contains every initial point. |
| MeshParticles.ScalarLerpBetween | src/vfx/meshParticleSystem.js:123-125 | `MathUtils.lerp(min, max, t)` with t in [0, 1] lies in [min, max]. |
| MeshParticles.DustPointInBox | src/vfx/meshParticleSystem.js:122-130 | An initial dust point lies in its ordered box. |
| MeshParticles.JitterBounded | src/vfx/meshParticleSystem.js:146-153 | Each velocity component (r − 0.5)·speed lies in [−speed/2, speed/2), and strictly below speed/2 when speed > 0. |
| MeshParticles.Wrap | src/vfx/meshParticleSystem.js:167-175 | A moved coordinate inside the range is kept. One below min jumps to max, and one above max jumps to min. The result lies in an ordered range. |
| MeshParticles.WrapIntoBox | src/vfx/meshParticleSystem.js:162-177 | Wrapping lands every point in an ordered box and leaves a point already inside unchanged. |
| MeshParticles.DustParticleSystem.Update | src/vfx/meshParticleSystem.js:157-181 | Every slot holds the wrapped sum of its old point and its velocity. In an ordered box every point ends inside. Velocities and count are unchanged. |
| Geometry.FoldWeights | src/lib/geometry.js:4-10 | The weights sum to 1, and for draws in [0, 1] they are non-negative. With u + v ≤ 1 they are the draws; otherwise they are 1 − u and 1 − v. |
| Geometry.RandomPointInBounds | src/lib/geometry.js:11-15 | Every coordinate of the point lies between the smallest and the largest of the three corners on that axis. |
| Geometry.RandomPointOnPointFace | src/lib/geometry.js:11-15 | A triangle whose corners coincide yields that corner. |
| Slideshow.LookupVfx | src/main.js:312-320 | A successful lookup returns the class registered under exactly that key; an unknown key gives None. |
| Slideshow.RegistryFindsEveryType | src/main.js:312-318 | Each of the six classes is found under its own key. |
| Slideshow.KindOf | src/main.js:313-317 | The five `ParticleSystem` classes in the registry use their own spawn variants, never the base or trail one. |
| Slideshow.ToVector | src/main.js:335-336 | `new Vector3(...array)` takes the first three components, and an empty array gives the zero vector. |
| Slideshow.Instantiate | src/main.js:327-338 | An unknown type throws `UnknownType`. A position that is not an array, a ring entry without a position, or a velocity given to a `ParticleSystem` class throws `NotAVector`. Any other entry yields a fresh, healthy system of its class at its origin, with the entry's options over the class defaults (`Configured`). A `ParticleSystem` class also gets its variant and has every particle spawned. Any lifetime is accepted. |
| Slideshow.InstantiateAll | src/main.js:325-339 | Start-up succeeds exactly when every entry is accepted. A failure reports what the first rejected entry throws. On success there is one fresh system per entry, in order, with fresh renderables. Each is built from its entry: its class, variant, origin and options (`Configured`). Each `ParticleSystem` holds the particles spawned from its own draws, and no two systems share an object or a renderable. |
| Slideshow.BuildNext | src/main.js:327-338 | One map step: the next entry is accepted exactly when its instantiation succeeds. A rejected entry reports what it throws. The new system is fresh, spawned from its draws, and extends the built prefix by one. |
| Slideshow.ExtendBuilt | src/main.js:327-339 | Appending a system that shares nothing with those before it keeps the systems pairwise distinct and their renderables pairwise disjoint. |
| Slideshow.InitialIndex | src/main.js:354 | `Math.floor(n / 2)`: 2i ≤ n < 2i + 2, a valid index whenever n > 0. |
| Slideshow.StepLeft | src/main.js:382-386 | `(i − 1 + n) % n` stays in [0, n). It is i − 1, or n − 1 from 0. |
| Slideshow.StepRight | src/main.js:387-390 | `(i + 1) % n` stays in [0, n). It is i + 1, or 0 from n − 1. |
| Slideshow.LeftRightInverse | src/main.js:382-400 | Left then right, or right then left, restores the index. |
| Slideshow.RightNAdvances | src/main.js:387-390 | k right presses advance the index by k modulo n. |
| Slideshow.RightCycles | src/main.js:387-400 | n right presses return to the start, and every system is reached within n − 1 presses. |
| Slideshow.Recentered | src/main.js:457-458 | One frame of `pos.x += (0 − pos.x)·0.15` makes x 0.85·x and leaves y and z unchanged. |
| Slideshow.RecenterContracts | src/main.js:457-458 | After k frames x is 0.85^k of its start and never larger in magnitude, with y and z unchanged. |
| Slideshow.ShowsOnlySelected | src/main.js:356-365 | Removing every system's renderables and adding the selected one's leaves the selected renderables in, and those of every other system out. |
| Slideshow.Show.constructor | src/main.js:354-379 | The first shown index is floor(n/2). The scene holds that system's renderables and none of the others, and only its caption is displayed. |
| Slideshow.Show.ShowOnlySelected | src/main.js:356-376 | The scene is the old scene without any system's renderables but with the selected system's. Exactly the caption at the selected index is displayed. |
| Slideshow.Show.ShowSelectedSystem | src/main.js:357-364 | The remove loop then the add: every other system's renderables are out of the scene and the selected one's are in. |
| Slideshow.Show.ShowSelectedCaption | src/main.js:367-375 | Caption k is displayed exactly when k is the selected index. |
| Slideshow.Show.Left | src/main.js:382-386 | The index takes one `StepLeft`; only the newly selected system is shown, with its caption. |
| Slideshow.Show.Right | src/main.js:387-390 | The index takes one `StepRight`; only the newly selected system is shown, with its caption. |
| Slideshow.Show.UpdateAll | src/main.js:446-448 | Every system, shown or not, takes one `update(dt)` about its own origin, and no origin moves. |
| Slideshow.Show.UpdateOne | src/main.js:447 | System i takes one update; every other system's particles and every origin are unchanged. |
| Slideshow.Show.UpdateDust | src/main.js:450-454 | Every dust cloud drifts by its velocities and wraps; clouds in ordered boxes stay inside them. |
| Slideshow.Show.UpdateDustOne | src/main.js:452 | Cloud j drifts and wraps; every other cloud is unchanged. |
| Slideshow.DriftStaysInside | src/main.js:450-454 | A cloud in an ordered volume lies inside it after a drift, wherever it started. |
| Slideshow.Show.RecenterSelected | src/main.js:456-458 | Only the selected system's origin moves, by one `Recentered` step; no particle moves. |
| Slideshow.Show.Look | src/main.js:460 | The camera takes one full `update` (`Cameras.CameraManager.Updated`) with the selected system's current origin as the live focus (the accessor `particleSystems[selectedIndex].position`). Only the camera's angles, lerp target, position and look target change. No system changes. |
| Slideshow.Show.Follow | src/main.js:456-460 | The selected origin is re-centred. Then the camera takes one full `update` (`Updated`) about the re-centred origin, from the camera state the call started in. |
| Slideshow.Show.Frame | src/main.js:441-460 | One animation frame. Every system advances once about its origin at the start of the frame. Then only the selected origin is re-centred. The camera takes one full `update` (`Updated`) about the new origin, from the camera state at the start of the frame. |
| Colliders.Colliders | src/main.js:192-197 | The collected list is never longer than the traversal. |
| Colliders.CollidersExactly | src/main.js:192-197 | An object is collected exactly when some visited node holding it is a mesh and, for the wall pass, is named with the prefix "wall". |
| Colliders.WallsAreMeshes | src/main.js:209-213 | Anything collected as a wall would also be collected as an environment mesh. |
| Colliders.CollidersAppend | src/main.js:193 | Traversing two parts in turn collects the two lists in turn. |
| Colliders.PushColliders | src/main.js:209-213 | One traversal appends the picked nodes, in visiting order, to what the shared list already held. |
| Colliders.CollectWalls | src/main.js:190-197 | The list the camera receives starts as exactly the scene's walls. |

## Left out

- **Dropped surroundings.**
  - DOM and UI: buttons, caption styling and transitions, cursor changes, and the keyboard event object beyond the arrow keys.
  - The configuration fetch and its fallback, GLTF loading, lights, renderer, fog and `requestAnimationFrame`.
  - Materials, blending and the shadow flags set on environment meshes.
  - Rendering itself.
- **Numbers and library calls.**
  - Floating-point rounding, NaN and `Float32Array` narrowing are not modelled: numbers are reals. The one place a NaN arises from a valid configuration, a zero lifetime's alpha, is the value None.
  - Library functions are the uninterpreted `MathLib` record.
  - Termination of the 0.001 snap is proved over the reals only.
- **Camera I/O.**
  - `THREE.Raycaster.intersectObjects` is its list of hit distances, nearest first, given as a parameter. The `far` bound it applies is part of that input.
  - `camera.lookAt` is modelled only as the point it is given.
- **Scene traversal** is given as the sequence of visited nodes in `traverse` order; the tree itself is not modelled.
- **Timing and concurrency.**
  - Each handler and each update is an atomic call.
  - The clock's `getDelta` is the `dt` parameter.
  - When the GLTF callback runs relative to frames is not modelled.
- **Particles.ParticleSystem.Update** requires that `initParticles` has run (`Ready`). The base class never calls it, and its `update` would throw on the missing position attribute.
- **Particles.Step** gives alpha as None when the lifetime is 0. The source computes 1 − age/0, which is NaN or an infinity, and the reals have no such value. Every other field of the step is given for a zero lifetime too.
- **Cameras.CameraManager.UpdateFocusPosition** stores the point's value. The source's accessor closes over the vector object, so later in-place changes to the caller's vector would move the focus; the model does not follow them. main.js never calls it.
- **Cameras.CameraManager.constructor** models an omitted collision list as a new empty list. A `null` list, which the source's `this.collisionObjects &&` guard also tolerates, is not modelled.
- **Particle aliasing.** Particles are values, so the model does not capture that `position.copy` and `velocity.copy` mutate shared vector objects. The source never shares them.
- **`subEmitter`** is stored by the base constructor and never read; it is left out.
- **Ring base-class fields.** `RingTrailSystem` carries none of the velocity, lifetime, age or alpha fields it inherits, because none of them is read.
- **Ring default position.** `RingTrails.RingOptions` requires `position`. The source's default is the array [0, 0, 0], which has no `clone`, so the base constructor throws on it.
- **Mesh geometry.** `MeshParticles.MeshParticleSystem.constructor` requires a well-formed geometry: faces in whole triples, indices naming vertices. On any other geometry `fromBufferAttribute` reads past the attribute, and the model does not give that result.
- **Dust built from a mesh.** The GLTF callback builds a `DustParticleSystem` from a mesh, which has no `min`/`max`. This is not modelled, because GLTF loading is left out.
- **Dust from the configuration** uses the `||` fallbacks of main.js (speed 0.003 there, against the class default 0.02). The model covers the resulting `DustParticleSystem` only.
- **Class exports.** main.js imports `ExplosionSystem`, `FountainSystem`, `FireworkSystem`, `SmokeSystem` and `StarburstSystem` as named exports, but the preset files export only their default factory. The model assumes the classes are reachable, as the registry intends.
- **Registry and JSON.**
  - Registry lookups of JavaScript prototype keys such as `constructor` are treated as unknown types.
  - JSON values are reduced to what the instantiation reads: an array position, another position value, a velocity, and the numeric options.
- **Ring options fall back twice.** A ring entry passes its options through both the ring's defaults and the base constructor's. Only the ring's defaults are observable, and only those are modelled.
- **Slideshow.Show.constructor** requires at least one system. With none, `showOnlySelectedSystem` dereferences `particleSystems[0]`, which is undefined, and throws.
- **Slideshow.Show.UpdateAll** states each system's particles and origins. It does not restate each ring's trail buffers or each preset's age range; those are stated by `Particles.ParticleSystem.Update` and `RingTrails.RingTrailSystem.Update`.
- **Slideshow.Show.Frame** leaves out the dust loop. It is stated on its own by `Slideshow.Show.UpdateDust`, which requires the dust buffers to be distinct from each other.
- **Slideshow.Advance** leaves a system unchanged when it is given a particle list of the wrong shape, or the wrong length. No system satisfying the slideshow's invariant holds such a list.
- **Overshoot deviation.** `update()` never clears the overshoot deviation, even after an angle has snapped back onto its bound. The model does the same: `Orbit.EaseN` keeps the correction active until the next drag records a new deviation.
- **Wheel overshoot.** Distance has no overshoot band, which is asymmetric with yaw and pitch. The model keeps the asymmetry.
