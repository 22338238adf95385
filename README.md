# Gesture-driven particle field, modelled in Dafny

The model covers the two components that carry this project's logic.

The **gesture classifier** (`client/src/lib/GestureRecognizer.ts`) turns per-frame hand landmarks and handedness labels into a gesture record. The record holds:

- a left and a right "hand open" flag;
- the distance between the two hands;
- pinch strength and pinch angle;
- the number of hands;
- a fixed confidence.

The **particle system** (`client/src/lib/ParticleSystem.ts`) holds two flat buffers, `positions` and `velocities`, with three slots per particle. It regenerates them when the shape or the count changes. Each frame it smooths the scale and the rotation toward their targets. For the firework shape it also moves every particle and applies gravity.

Files:

- `numeric.dfy` (module `Numeric`): the clamp `Math.max(lo, Math.min(hi, x))`, which both components use.
- `particles.dfy` (module `Particles`): the class `ParticleSystem`.
  - Its fields are the smoothing scalars, the configured count and shape, and the two buffers as `array<real>`.
  - Each method is proved against specification functions on sequences. `Placed` and `Launched` are the generator writes, done one store at a time with out-of-range stores dropped. `Drifted` and `Fallen` are the firework integration step. `Smooth` is one smoothing step.
  - Lemmas give the closed forms and the convergence facts.
- `gestures.dfy` (module `Gestures`):
  - The pure functions `PinchStrength`, `PinchAngle` and `HandDistance`.
  - The counting loop `IsHandOpen`.
  - The class `GestureData`, which is the persistent record that each frame updates field by field.
  - The class `GestureRecognizer`, with `ProcessGestureData` and the gating of `OnHandsResults`.
  - `Classify` is the one-frame transition on record values. Lemmas state what each branch does.
- `wiring.dfy` (module `Wiring`): the line of `Home.tsx` that turns the hand distance into a scale.

Math.sqrt and Math.atan2 become function parameters `dist` and `angle` of type `(Point, Point) -> real`.

- `Euclidean(dist)` says that `dist` is non-negative and that its square is the squared Euclidean distance.
- `AngleRange(angle)` says that `angle` lies in [-180, 180].

Every property that needs a true distance is proved under `Euclidean(dist)`. The threshold test of `isHandOpen` is also restated on squared distances (`TipExtendedBySquares`).

The shape generators use trigonometry and Math.random, so their values come from a `Sampler`. A sampler maps a family, the `index` argument the generator receives and the particle total to a position and, for the firework, a velocity. Each generation pass takes its own sampler.

Points of the code that the model keeps as written:

- The gesture record is one persistent object. Each branch of `processGestureData` writes only some of its fields, and the others keep their values from earlier frames.
- A frame without landmarks is never processed. The callback receives the previous record again.
- With two hands and a first label that is neither "Left" nor "Right", both sides resolve to hand 1.
- The generators receive `index = 3*i`, not `i`.
- The firework generator writes its velocity at `index * 3 = 9*i`. `update` reads it at `3*i`.

## Model

| member | source | states |
|---|---|---|
| `Numeric.Clamp` | client/src/lib/ParticleSystem.ts:150 | the result lies in [lo, hi], is x when x is already inside, and is the nearer bound otherwise |
| `Particles.FamilyOf` | client/src/lib/ParticleSystem.ts:64-82 | the dispatch `switch` on the shape name; exactly the name "firework" selects the firework generator |
| `Particles.FamilyOfNames` | client/src/lib/ParticleSystem.ts:64-82 | each of the five shape names selects its own generator, and any other name selects the sphere |
| `Particles.Zeros` | client/src/lib/ParticleSystem.ts:33-34 | a newly allocated buffer of n slots holds zero in every slot |
| `Particles.Store` | client/src/lib/ParticleSystem.ts:132-136 | one typed-array store; the buffer keeps its length |
| `Particles.StoreAt` | client/src/lib/ParticleSystem.ts:132-136 | a typed-array store changes only slot j, and a store at or past the end changes nothing and never grows the buffer |
| `Particles.Placed` | client/src/lib/ParticleSystem.ts:57-83 | the generation loop never changes the length of the position buffer |
| `Particles.Launched` | client/src/lib/ParticleSystem.ts:124-136 | the generation loop never changes the length of the velocity buffer, and only the firework shape writes velocities at all |
| `Particles.StoreTriple` | client/src/lib/ParticleSystem.ts:128-130 | the three stores of one generator; the buffer keeps its length |
| `Particles.StoreTripleAt` | client/src/lib/ParticleSystem.ts:128-130 | a generator's three stores set slots index..index+2 to x, y and z and leave every other slot alone |
| `Particles.PlacedAt` | client/src/lib/ParticleSystem.ts:61-83 | after the loop, slot 3i+k holds component k of the position that particle i's generator produced from index 3i |
| `Particles.PlacedBeyond` | client/src/lib/ParticleSystem.ts:61-62 | the loop writes nothing at or beyond slot 3*count |
| `Particles.PlacedReplacesAll` | client/src/lib/ParticleSystem.ts:57-83 | a full pass over a buffer of 3*count slots gives the same result whatever the buffer held before, so every position is replaced |
| `Particles.LaunchedAt` | client/src/lib/ParticleSystem.ts:132-136 | the firework velocity of particle i ends up at slots 9i..9i+2 whenever those slots exist |
| `Particles.LaunchedElsewhere` | client/src/lib/ParticleSystem.ts:124-136 | a velocity slot not of the form 9i+k (k < 3, i < n) keeps its old value |
| `Particles.FreshVelocitiesZeroElsewhere` | client/src/lib/ParticleSystem.ts:33-37 | right after allocation and generation, every velocity slot outside the firework slots 9i..9i+2 is zero |
| `Particles.FireworkParticleOneAtRest` | client/src/lib/ParticleSystem.ts:133-135 | with two or more particles, slots 3..5 (where `update` reads particle 1's velocity) stay zero for every sampler |
| `Particles.LaunchedIntended` | client/src/lib/ParticleSystem.ts:133-135 | the corrected firework layout never changes the length of the velocity buffer |
| `Particles.LaunchedIntendedAt` | client/src/lib/ParticleSystem.ts:133-135 | with the velocity stored at `index`, slot 3i+k holds particle i's own generated velocity component k |
| `Particles.SphereCosPhi` | client/src/lib/ParticleSystem.ts:87 | the argument `-1 + 2 * index / total` handed to Math.acos; index 0 gives -1 (the south pole) and index = total gives 1 (the north pole) |
| `Particles.SphereAsWrittenDomain` | client/src/lib/ParticleSystem.ts:87 | when called with index 3i, the argument given to Math.acos lies in [-1, 1] iff 3i <= count |
| `Particles.SphereIntendedDomain` | client/src/lib/ParticleSystem.ts:87 | when called with the particle number i < count, the argument given to Math.acos lies in [-1, 1) |
| `Particles.Smooth` | client/src/lib/ParticleSystem.ts:186-190 | the new distance to the target is 0.9 times the old one, the value stays strictly between the old value and the target, and a value at its target stays there |
| `Particles.SmoothN` | client/src/lib/ParticleSystem.ts:184-190 | n updates toward a fixed target; a value already at the target stays there |
| `Particles.SmoothNDecay` | client/src/lib/ParticleSystem.ts:184-190 | after n updates toward a fixed target, the distance to it is 0.9^n times the initial distance |
| `Particles.SmoothNApproaches` | client/src/lib/ParticleSystem.ts:184-190 | repeated updates never cross the target, and each further update strictly shrinks a nonzero distance |
| `Particles.Moved` | client/src/lib/ParticleSystem.ts:201-203 | one slot's `p += v * dt`; a zero velocity or a zero step leaves it in place |
| `Particles.Drifted` | client/src/lib/ParticleSystem.ts:199-203 | every position slot moved by its own velocity slot, the buffer keeping its length |
| `Particles.Fallen` | client/src/lib/ParticleSystem.ts:199-206 | the velocity buffer after one tick of gravity, keeping its length; `FallenAt` gives its slots |
| `Particles.FallenAt` | client/src/lib/ParticleSystem.ts:206 | per particle, the x and y velocities are unchanged and the z velocity drops by exactly 0.5*dt |
| `Particles.Flight` | client/src/lib/ParticleSystem.ts:203-206 | one particle's z coordinate and z velocity over n ticks, starting from (z, vz) at n = 0 |
| `Particles.Ticks` | client/src/lib/ParticleSystem.ts:199-207 | the two buffers after n firework updates, each of their lengths kept |
| `Particles.TicksFollowFlight` | client/src/lib/ParticleSystem.ts:199-207 | over n firework updates, slot 3i+2 of the buffers follows `Flight` exactly, so the closed forms below hold for every particle |
| `Particles.FlightVelocity` | client/src/lib/ParticleSystem.ts:199-207 | after n ticks of dt a firework particle's z velocity is vz - 0.5 n dt |
| `Particles.FlightIsParabola` | client/src/lib/ParticleSystem.ts:199-207 | after n ticks of dt its z coordinate is z + n vz dt - 0.5 Tri(n) dt^2, a discrete parabola |
| `Particles.TriClosedForm` | client/src/lib/ParticleSystem.ts:199-207 | the accumulated drop Tri(n) = 0 + 1 + ... + (n-1) equals n(n-1)/2 |
| `Particles.ParticleSystem.constructor` | client/src/lib/ParticleSystem.ts:17-28 | starts at scale 1 and rotation 0, with the configured count and shape and fresh buffers holding the generated shape |
| `Particles.ParticleSystem.InitializeParticles` | client/src/lib/ParticleSystem.ts:30-40 | allocates two fresh zeroed buffers of 3*count slots, generates into them and changes no other field |
| `Particles.ParticleSystem.SetTriple` | client/src/lib/ParticleSystem.ts:128-130 | the three stores of a generator, equal to `StoreTriple` of the old buffer |
| `Particles.ParticleSystem.SetSlot` | client/src/lib/ParticleSystem.ts:133 | one Float32Array store, dropped when past the end |
| `Particles.ParticleSystem.GeneratePositionOnly` | client/src/lib/ParticleSystem.ts:86-147 | the sphere, heart, flower and nebula generators write exactly the three position slots at `index` |
| `Particles.ParticleSystem.GenerateFireworkParticle` | client/src/lib/ParticleSystem.ts:124-137 | writes the position triple at `index` and the velocity triple at `index * 3` |
| `Particles.ParticleSystem.GenerateOne` | client/src/lib/ParticleSystem.ts:62-83 | one pass of the loop: the generator the shape name selects, called with index 3i, extends the first i passes of `Placed` and `Launched` to i + 1 |
| `Particles.ParticleSystem.GenerateParticleShape` | client/src/lib/ParticleSystem.ts:57-84 | the buffers become `Placed` and `Launched` of their old contents for the configured family and count |
| `Particles.ParticleSystem.SetScale` | client/src/lib/ParticleSystem.ts:149-151 | the target scale becomes the input clamped to [0.5, 2] and nothing else changes |
| `Particles.ParticleSystem.SetRotation` | client/src/lib/ParticleSystem.ts:153-155 | the target rotation becomes the argument unchanged |
| `Particles.ParticleSystem.SetParticleShape` | client/src/lib/ParticleSystem.ts:163-174 | with the current shape nothing changes; otherwise the shape is recorded and the same buffers are regenerated in place, with the count and the buffer lengths unchanged |
| `Particles.ParticleSystem.SetParticleCount` | client/src/lib/ParticleSystem.ts:176-182 | with the current count nothing changes; otherwise both buffers are replaced by fresh ones of 3*count slots, generated from zero, and the smoothing state is kept |
| `Particles.ParticleSystem.Update` | client/src/lib/ParticleSystem.ts:184-213 | both currents take one smoothing step toward their targets; for "firework" the buffers become `Drifted` and `Fallen`, and for any other shape they are unchanged; the current scale stays in [0.5, 2] |
| `Particles.ParticleSystem.MoveParticle` | client/src/lib/ParticleSystem.ts:200-206 | one iteration: particle i's three positions move by their velocity times dt, its z velocity drops by 0.5*dt, and no other slot changes |
| `Particles.ParticleSystem.Integrate` | client/src/lib/ParticleSystem.ts:197-207 | every slot j < 3*count becomes p[j] + v[j]*dt, and every z velocity drops by 0.5*dt |
| `Gestures.TipExtended` | client/src/lib/GestureRecognizer.ts:157-167 | the threshold test of one fingertip; under a true distance an extended tip is strictly away from the palm base |
| `Gestures.TipExtendedBySquares` | client/src/lib/GestureRecognizer.ts:157-167 | for a true distance, tip distance > 1.5 * palm distance iff squared tip distance > 2.25 * squared palm distance |
| `Gestures.OpenCount` | client/src/lib/GestureRecognizer.ts:154-170 | the counter of extended tips never exceeds the number of tips examined, so it stays in [0, 5] |
| `Gestures.OpenCountIsCardinality` | client/src/lib/GestureRecognizer.ts:161-172 | counting the extended tips one by one gives the size of the set of extended tips |
| `Gestures.HandOpenIffThreeTips` | client/src/lib/GestureRecognizer.ts:149-172 | fewer than 21 landmarks means not open; otherwise the hand is open iff at least 3 of the tips {4, 8, 12, 16, 20} are extended, and at most 5 are |
| `Gestures.HandOpen` | client/src/lib/GestureRecognizer.ts:149-173 | the open test; an open hand always has at least 21 landmarks |
| `Gestures.IsHandOpen` | client/src/lib/GestureRecognizer.ts:149-173 | the counting loop returns exactly `HandOpen` |
| `Gestures.PinchStrength` | client/src/lib/GestureRecognizer.ts:175-189 | the strength lies in [0, 1] and is 0 with fewer than 9 landmarks |
| `Gestures.PinchStrengthExtremes` | client/src/lib/GestureRecognizer.ts:182-188 | for a true distance, the strength is 1 iff tips 4 and 8 coincide, and 0 iff their squared distance is at least 0.25 |
| `Gestures.PinchAngle` | client/src/lib/GestureRecognizer.ts:191-200 | the angle is 0 with fewer than 9 landmarks and stays within the primitive's [-180, 180] |
| `Gestures.HandDistance` | client/src/lib/GestureRecognizer.ts:202-215 | the distance lies in [0, 1] and is 0 when either landmark list is empty |
| `Gestures.HandDistanceSymmetric` | client/src/lib/GestureRecognizer.ts:202-215 | for a true distance, swapping the two hands gives the same hand distance |
| `Gestures.HandDistanceSelf` | client/src/lib/GestureRecognizer.ts:206-214 | for a true distance, two hands with the same palm base are at distance 0 |
| `Gestures.LabelIs` | client/src/lib/GestureRecognizer.ts:121-135 | `handedness[0] === name`; a list without a first entry (undefined in the source) matches no label |
| `Gestures.LabelsExclusive` | client/src/lib/GestureRecognizer.ts:134-135 | the first label cannot be both "Left" and "Right", so the two ternaries never both pick hand 0 |
| `Gestures.ResolveHands` | client/src/lib/GestureRecognizer.ts:134-135 | label "Left" gives (hand 0, hand 1), label "Right" gives (hand 1, hand 0), and any other label, or a handedness list without a first entry, gives (hand 1, hand 1) |
| `Gestures.Classify` | client/src/lib/GestureRecognizer.ts:104-147 | `processGestureData` on the record's old value; the hand count and the confidence 0.8 are always written |
| `Gestures.ClassifyInRange` | client/src/lib/GestureRecognizer.ts:104-147 | each frame keeps the hand distance and the pinch strength in [0, 1], the angle in [-180, 180] and the confidence in [0, 1] |
| `Gestures.ClassifyNoHands` | client/src/lib/GestureRecognizer.ts:105-114 | zero hands clears both flags, the distance and the strength, sets the count to 0 and the confidence to 0.8, and keeps the old pinch angle |
| `Gestures.ClassifyOneHand` | client/src/lib/GestureRecognizer.ts:105-131 | one hand, the whole record: the left flag is set iff the label is "Left" and the hand is open, the right flag iff the label is anything else and the hand is open, so at most one flag is set; the distance is 0, pinch strength and angle come from that hand, the count is 1 and the confidence 0.8 |
| `Gestures.ClassifySwapped` | client/src/lib/GestureRecognizer.ts:132-146 | listing the two hands in the other order, with the first label changed from "Left" to "Right", gives the same record |
| `Gestures.ClassifyUnlabelledPair` | client/src/lib/GestureRecognizer.ts:105-146 | when the first label is neither "Left" nor "Right", the whole record: both flags come from hand 1, the hand distance is 0, pinch strength and angle come from hand 1, the count is 2 and the confidence 0.8 |
| `Gestures.ClassifyTwoHandsLeft` | client/src/lib/GestureRecognizer.ts:105-146 | two hands with first label "Left", the whole record: hand 0 is left and hand 1 right, the distance is between them, and pinch strength and angle come only from the right hand |
| `Gestures.ClassifyTwoHandsRight` | client/src/lib/GestureRecognizer.ts:105-146 | two hands with first label "Right", the whole record: hand 0 is right and supplies pinch strength and angle, hand 1 is left |
| `Gestures.ClassifyManyHands` | client/src/lib/GestureRecognizer.ts:104-147 | with more than two hands, every field except the count and the confidence keeps its previous value |
| `Gestures.Received` | client/src/lib/GestureRecognizer.ts:80-101 | a non-empty frame writes its hand count and the confidence 0.8; a record that reports zero hands is the unchanged previous one |
| `Gestures.ReceivedKeepsStaleHands` | client/src/lib/GestureRecognizer.ts:80-101 | once a hand has been seen, a frame without landmarks re-sends the previous record, so zero hands is never reported |
| `Gestures.ReceivedIntendedClears` | client/src/lib/GestureRecognizer.ts:108-114 | when every frame is processed, a frame without hands reports 0 hands and clears both flags, the distance and the strength |
| `Gestures.GestureData.constructor` | client/src/lib/GestureRecognizer.ts:20-28 | the record starts with both flags false, every number 0 and zero hands |
| `Gestures.GestureRecognizer.constructor` | client/src/lib/GestureRecognizer.ts:15-35 | a fresh record in its initial state, no callback and nothing delivered yet |
| `Gestures.GestureRecognizer.OnGestureChange` | client/src/lib/GestureRecognizer.ts:217-219 | a callback is registered afterwards |
| `Gestures.GestureRecognizer.ProcessGestureData` | client/src/lib/GestureRecognizer.ts:104-147 | the persistent record becomes `Classify` of its old value, and its ranges are preserved |
| `Gestures.GestureRecognizer.OnHandsResults` | client/src/lib/GestureRecognizer.ts:80-101 | only a non-empty landmark list is processed; if a callback is registered, it receives the record in either case |
| `Wiring.ScaleFromGesture` | client/src/pages/Home.tsx:66 | a hand distance in [0, 1] maps into [0.5, 2], which `setScale` stores unclamped |
| `Wiring.GestureScaleNeverClamped` | client/src/pages/Home.tsx:66 | for every in-range record, clamping leaves the derived scale unchanged, and the scale grows strictly with the hand distance |

## Left out

- Float32 rounding, NaN and infinities: every buffer slot and every scalar is a `real`. The NaN positions of the sphere finding below are shown through the argument given to acos, not carried in the buffers.
- The coordinates of the five generators are not computed, because they need trigonometry, Math.sqrt, Math.PI and Math.random (client/src/lib/ParticleSystem.ts:86-147). They come from the `Sampler` parameter, and its values are unconstrained. So the model states where each value goes, not what it is.
- Math.sqrt and Math.atan2 in the classifier are parameters. Properties that need them are stated under `Euclidean(dist)` or `AngleRange(angle)`. The value of the pinch angle is not computed, only its guard and its range.
- `Particles.ParticleSystem.GeneratePositionOnly`: the four position-only generators share one method, distinguished by their `Family`. Their different formulas live in the sampler.
- `Particles.ParticleSystem.MoveParticle`: the body of the firework loop of `update` is a method of its own. The loop runs it once per particle, in the same order.
- The particle count is a `nat`. In the source, a negative count makes `new Float32Array` throw a RangeError. A fractional count gives a buffer of floor(3*count) slots, and the generator stores past its end are dropped. Neither path is modelled. The slider at client/src/components/ControlPanel.tsx:146-152 only produces multiples of 1000, from 1000 to 50000.
- THREE.js objects are not modelled: the scene, geometry, material, the `particles.scale` and `rotation` writes, the `needsUpdate` flags, `setColor`, `dispose` and `scene.remove`. They are rendering-library calls.
- `particleSize`, `particleColor` and `bloomIntensity` from the configuration are not modelled. The core never reads them outside the material.
- The configuration object is shared with its caller in the source, so `setParticleShape` and `setParticleCount` also change the caller's object. The model keeps count and shape as fields of the particle system.
- MediaPipe and the camera (`initialize`, `stop`, `dispose` in GestureRecognizer.ts) are not modelled: they are foreign calls and asynchronous I/O.
- Canvas drawing in `onHandsResults` is not modelled, including the early return at client/src/lib/GestureRecognizer.ts:72 when no 2D context exists (that path skips processing and the callback).
- `Gestures.GestureRecognizer.OnHandsResults`: the callback receives a reference to the live record. The model appends a snapshot of it to `delivered`. The only consumer, Home.tsx, reads the record at once.
- `results.landmarks` missing and `results.landmarks` empty both skip processing. Both are modelled as an empty sequence.
- `Gestures.Classify`: `results.handedness` is taken to be a list, possibly empty. When it is absent, `handedness[0]` at client/src/lib/GestureRecognizer.ts:121 or :134 throws a TypeError after lines 105-106 have already written the hand count and the confidence, and the callback at lines 99-101 is skipped for that frame. That exception path is not modelled.
- client/src/lib/ThreeRenderer.ts (the animation loop, `Date.now` time steps, camera and resizing) and the React components are not part of this model. The exception is the scale mapping of Home.tsx:66. The rotation mapping at Home.tsx:69 needs Math.PI and is left out.

## Findings

| source | as written | input that shows it | evidently intended | confidence | as-written member | corrected member |
|---|---|---|---|---|---|---|
| client/src/lib/ParticleSystem.ts:133-135 | the firework velocity of particle i is stored at `index * 3` = 9i, while `update` reads particle i's velocity at 3i | count = 2: particle 1's velocity lands at slots 9..11, which do not exist, and slots 3..5 stay 0, so particle 1 only falls | velocities stored at `index`, beside the position | high (not executed) | `Particles.FireworkParticleOneAtRest` | `Particles.LaunchedIntendedAt` |
| client/src/lib/ParticleSystem.ts:62-93 | the sphere generator gets `index = 3*i` and computes `acos(-1 + 2*index/total)` | count = 1000, i = 400: the argument is 1.4, acos gives NaN, and so does every particle with 3i > count | the particle number i as the index, which keeps the argument in [-1, 1) | high (not executed) | `Particles.SphereAsWrittenDomain` | `Particles.SphereIntendedDomain` |
| client/src/lib/GestureRecognizer.ts:80-114 | a frame without landmarks is not processed, so the zero-hand branch of `processGestureData` is never reached from `onHandsResults` | one frame with an open left hand, then a frame with no hands: the callback again receives handsDetected = 1 with the left hand open | an empty frame processed too, reporting zero hands with flags, distance and strength cleared | medium (not executed) | `Gestures.ReceivedKeepsStaleHands` | `Gestures.ReceivedIntendedClears` |

The classes model the code as written: the 9i velocity layout, the 3i generator index and the gating of empty frames. The corrected members stand beside them with their intended properties proved.
