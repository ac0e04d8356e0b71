# ParticleEarth in Dafny

A model of the `ParticleEarth` controller of `script.js`: the rotating sphere
of particles that fades in, fills in from pole to pole (emission), links
nearby particles with lines (connection), hands off to the caption
animation once, and on request flies the camera through the sphere
(scale-through) and calls back when it has vanished. Pointer and touch drags
turn the sphere; otherwise it turns by itself.

The model is split the way the class works:

- `earth.dfy` — class `Earth.ParticleEarth`, whose methods change its fields
  in place, with the source's loops (createParticles, the emission loop,
  generateConnections, rotateParticles, projectParticles) and their
  invariants. The source's phase fields (`alpha`, `isFadingOut`,
  `isScaling`, `radius`, `depth`, `enterSpeed`, `depthDirection`,
  `isVisible`, `onEarthDisappeared`, `isEmitting`, `emissionProgress`,
  `isConnecting`, `connectionProgress`) are grouped in one record field
  `phases`, and its drag fields (`isDragging`, `lastMouseX/Y`,
  `rotationX/Y`) in one record field `drag`; every assignment to one of
  them in the source is a field update of the record here. Each method is
  proved to leave the state that a specification function computes: the
  phase updates, `StartScaling` and `StartFadingOut` are tied to functions
  of module `Controller`, the pointer handlers to functions of module
  `Pointer`, the loops to `Created`, `EmitAll`, `RevealAll`, `GreedyEdges`,
  `RotateAll` and `ProjectAll`, and `Animate`, `ResizeCanvas` and the
  constructor to `Frame`, `Resize` and `Init` of module `Scene`.
- `scene.dfy` — the whole state (`EarthState`) and one `animate()` call,
  `resizeCanvas` and the constructor as functions of it, with the lemmas
  that relate frames and resizes.
- `controller.dfy` — the phase fields and the part of a frame that updates
  them, with the multi-frame properties: phase order, the caption hand-off
  scheduled exactly once, the callback fired at most once, 60 frames of
  scale-through from depth 400.
- `emission.dfy`, `connections.dfy`, `particles.dfy`, `pointer.dfy`,
  `geometry.dfy`, `sorting.dfy`, `easing.dfy` — the per-particle rules, the
  greedy edge builder, the particle record, the drag state machine, the
  rotations, a stable sort, and `easeInOutQuad`. `arith.dfy` and
  `wrappers.dfy` hold shared arithmetic facts and `Option`.

Calls out of the class are recorded in `phases.events`: `TextAnimationScheduled`
for the `setTimeout` that starts the caption, and `EarthDisappeared(cb)` for
a call of the callback handed to `startScaling`. `Math.random`, `Math.cos`
and `Math.sin` are parameters: a `draw: nat -> Sample` gives the random
numbers of particle `i`, with sin(phi), cos(theta) and sin(theta) already
evaluated, and `cosf`, `sinf: real -> real` stand for the cosine and sine.
The viewport size is passed to the constructor and to `ResizeCanvas`.
Numbers are exact reals.

## Model

| member | source | states |
|---|---|---|
| Earth.ParticleEarth.constructor | script.js:3-61 | the state is `Init(width, height, draw)`: counts, radius and depth chosen by the 768-pixel breakpoint, all phases at their initial values, freshly created particles |
| Earth.ParticleEarth.CreateParticles | script.js:86-128 | the loop pushes one particle per draw and the result is that list sorted by targetZ (`Created`) |
| Earth.ParticleEarth.UpdateFade | script.js:342-347 | `phases` becomes `FadeIn(old(phases))` |
| Earth.ParticleEarth.UpdateScaling | script.js:350-372 | `phases` becomes `ScaleThrough(old(phases))` |
| Earth.ParticleEarth.AdvanceEmission | script.js:375-434 | `phases` becomes `EmissionPhase(old(phases))`: progress clamped at 1, and at 1 emission ends and connecting starts |
| Earth.ParticleEarth.EmitLoop | script.js:385-418 | the per-particle loop leaves exactly `EmitAll` of its input |
| Earth.ParticleEarth.RevealLoop | script.js:424-428 | the forEach leaves every particle visible, ready and at appearProgress 1 (`RevealAll`) |
| Earth.ParticleEarth.UpdateEmission | script.js:375-434 | phases, particles, connections and pair set become those of `EmissionFrame` of the old state |
| Earth.ParticleEarth.GenerateConnections | script.js:461-518 | the nested loops with running minimum compute exactly `GreedyEdges(ps, lineCount)` when the stride is at least 1 |
| Earth.ParticleEarth.UpdateConnection | script.js:437-451 | `phases` becomes `ConnectionPhase(old(phases))` |
| Earth.ParticleEarth.RotateParticles | script.js:130-163 | automatic yaw unless dragging, then every particle rotated from its original position with the new angles (`RotateAll`) |
| Earth.ParticleEarth.RotateLoop | script.js:136-162 | the loop over particles computes `RotateAll` |
| Earth.ParticleEarth.ProjectParticles | script.js:231-240 | particles become `ProjectAll` with the current depth, centre and radius |
| Earth.ParticleEarth.ProjectLoop | script.js:232-239 | the loop over particles computes `ProjectAll` |
| Earth.ParticleEarth.DrawParticles | script.js:242-252 | when visible the list is re-sorted back to front by current z; when hidden it is untouched |
| Earth.ParticleEarth.Animate | script.js:340-458 | one frame leaves exactly `Frame(old(State()))` |
| Earth.ParticleEarth.ResizeCanvas | script.js:63-84 | the state becomes `Resize` of the old one: resizeCanvas as written, with lineCount left as the constructor chose it (see Findings) |
| Earth.ParticleEarth.StartScaling | script.js:526-540 | `phases` becomes `Controller.StartScaling(old(phases), callback)` |
| Earth.ParticleEarth.StartFadingOut | script.js:543-545 | only isFadingOut is set |
| Earth.ParticleEarth.OnMouseDown | script.js:168-172 | `drag` becomes `MouseDown(old(drag), x, y)` |
| Earth.ParticleEarth.OnMouseMove | script.js:175-188 | `drag` becomes `MouseMove(old(drag), x, y)` |
| Earth.ParticleEarth.OnMouseUp | script.js:191-193 | `drag` becomes `EndDrag(old(drag))` |
| Earth.ParticleEarth.OnMouseLeave | script.js:196-198 | `drag` becomes `EndDrag(old(drag))` |
| Earth.ParticleEarth.OnTouchStart | script.js:201-207 | `drag` becomes `TouchStart(old(drag), touches, x, y)` |
| Earth.ParticleEarth.OnTouchMove | script.js:209-220 | `drag` becomes `TouchMove(old(drag), touches, x, y)` |
| Earth.ParticleEarth.OnTouchEnd | script.js:222-224 | `drag` becomes `EndDrag(old(drag))` |
| Earth.ParticleEarth.OnTouchCancel | script.js:226-228 | `drag` becomes `EndDrag(old(drag))` |
| Controller.FadeIn | script.js:342-347 | only alpha changes; it never decreases, stays in [0, 1], rises while not fading out and below 1, and is frozen while fading out |
| Controller.ScaleThrough | script.js:350-372 | without scaling nothing changes; with it radius grows by enterSpeed and depth moves by 2 * depthDirection * enterSpeed; scaling ends only at depth <= -200, which sets alpha 0 and hides the sphere |
| Controller.EmissionPhase | script.js:375-434 | outside emission nothing changes |
| Controller.ConnectionPhase | script.js:437-451 | outside connection nothing changes |
| Controller.EmissionPhaseSpec | script.js:375-434 | during emission the progress gains 0.0025 clamped at 1; emission ends exactly at 1, and then connecting starts |
| Controller.ConnectionPhaseSpec | script.js:437-451 | during connection the progress gains 0.01 clamped at 1; connecting ends exactly at 1, and exactly then the caption hand-off is recorded |
| Controller.StartScaling | script.js:526-540 | scaling on, visible, enterSpeed 5, depthDirection -1, the callback stored, nothing else changed |
| Controller.StartFadingOut | script.js:543-545 | isFadingOut set, nothing else changed |
| Controller.InitialInv | script.js:41-48 | the initial phases satisfy the phase invariant |
| Controller.Initial | script.js:19-48 | the constructor's phase fields: alpha 0, not fading out, not scaling, visible, emitting from progress 0, not connecting, no pending callback and no events; radius and depth as given |
| Controller.ScaleThroughCounts | script.js:365-370 | scale-through never schedules the caption, and fired plus pending callbacks stay constant |
| Controller.ConnectionPhaseCounts | script.js:442-450 | the caption is scheduled exactly on the frame connecting ends |
| Controller.ScaleThroughKeepsInv | script.js:350-372 | scale-through keeps the phase invariant |
| Controller.EmissionPhaseKeepsInv | script.js:375-434 | the emission update keeps the phase invariant |
| Controller.ConnectionPhaseKeepsInv | script.js:437-451 | the connection update keeps the phase invariant |
| Controller.StepKeepsInv | script.js:340-451 | a frame keeps the phase invariant: progresses in [0, 1], emission before connection, caption scheduled once exactly when both are over |
| Controller.StepPhaseOrder | script.js:375-451 | progresses never decrease; emission never restarts; connecting starts only as emission completes at progress 1; the caption is scheduled only as connecting ends at progress 1 |
| Controller.StepProgress | script.js:375-451 | a frame adds 0.0025 to emission progress, or completes emission and makes the first connection step of 0.01, or adds 0.01 to connection progress, or ends it |
| Controller.RunKeepsInv | script.js:340-451 | any number of frames keeps the phase invariant |
| Controller.TextScheduledAtMostOnce | script.js:447-449 | however many frames run, the caption is scheduled at most once |
| Controller.RunAdd | script.js:340-458 | a + b frames are a frames followed by b frames |
| Controller.EmissionFrames | script.js:375-382 | k emission frames add k * 0.0025 while below 1 |
| Controller.ConnectionFrames | script.js:437-440 | k connection frames add k * 0.01 while below 1 |
| Controller.EmissionTakes400Frames | script.js:375-434 | from progress 0, emission is still on after 399 frames and connecting has begun after 400 |
| Controller.ConnectionTakes99Frames | script.js:437-451 | from connection progress 0.01, connecting is on after 98 frames and over after 99 |
| Controller.NoHandOffBefore499 | script.js:437-451 | 498 frames after emission starts the caption has not been scheduled |
| Controller.HandOffAt499 | script.js:437-451 | 499 frames after emission starts both phases are over |
| Controller.HandOffScheduledOnce | script.js:375-451 | from the constructor's phases the caption is scheduled on frame 499 and stays scheduled exactly once forever after |
| Controller.DoneStaysDone | script.js:375-451 | once emission and connection are over they stay over |
| Controller.StartScalingKeepsInv | script.js:526-540 | startScaling keeps the phase invariant |
| Controller.StartFadingOutKeepsInv | script.js:543-545 | startFadingOut keeps the phase invariant |
| Controller.LaterPhasesFrame | script.js:375-451 | emission and connection touch only their own fields and the event log |
| Controller.FadeOutFreezesAlpha | script.js:342-372 | alpha stays non-negative; while fading out it never rises; the only fall is the reset to 0 when scaling ends |
| Controller.FadingOutNeverBrightens | script.js:543-545 | once fading out, no number of frames raises alpha |
| Controller.StepCallbackCount | script.js:365-370 | one frame fires the pending callback at most once and never shows the sphere again |
| Controller.CallbackFiresAtMostOnce | script.js:366-370 | over any number of frames the callback fires at most once and the sphere, once hidden, stays hidden |
| Controller.StepScaling | script.js:350-372 | a scaling frame adds enterSpeed to the radius and moves depth; scaling continues exactly while depth > -200 |
| Controller.ScalingFrames | script.js:350-356 | k scaling frames from startScaling's speeds add 5k to the radius and take 10k off the depth |
| Controller.VanishOnFrame60 | script.js:350-372 | from depth 400, frame 59 is still scaling and visible; frame 60 hides the sphere and clears the callback |
| Controller.NoPendingNoCallback | script.js:366-370 | with no callback pending, no frame fires one |
| Controller.ScaleThroughTakes60Frames | script.js:526-540 | startScaling from depth 400: visible for 59 frames, radius +300 at frame 60, hidden from then on with the callback fired exactly once |
| Emission.Threshold | script.js:389 | particle i of n has threshold i/n in [0, 1) |
| Emission.AppearProgress | script.js:392-417 | appearProgress is in [0, 1], 0 below the threshold, 1 once the global progress reaches 1 |
| Emission.EmitParticle | script.js:392-417 | only isVisible, isReady and appearProgress change; below the threshold the particle is hidden; visible iff appearProgress > 0.5; ready once it reaches 1 |
| Emission.EmitAll | script.js:385-418 | the emission loop changes only isVisible, isReady and appearProgress of each particle; particle i of n gets `AppearProgress(i, n, ep)` and is visible iff that exceeds 0.5 |
| Emission.RevealAll | script.js:422-428 | the closing forEach makes every particle visible, ready and at appearProgress 1, changing nothing else |
| Emission.AppearOrderedByIndex | script.js:389-396 | for i < j, particle i is at least as far along as particle j |
| Emission.AppearMonotoneInProgress | script.js:392-396 | a particle's appearProgress never falls as the global progress grows |
| Emission.EmissionOrdered | script.js:385-418 | in an emission frame the list is ordered by appearProgress, first particle furthest along |
| Emission.EmissionCompletes | script.js:396-404 | at global progress 1 the loop alone already reveals every particle |
| Emission.FourParticlesAtHalf | script.js:385-418 | four particles at progress 0.5 have appearProgress 1/2, 1/3, 0, 0 and none is visible |
| Emission.RatioShrinks | script.js:396 | (e - t) / (1 - t) falls as the threshold t grows |
| Particles.NewParticle | script.js:95-122 | a new particle has position, target and original equal, is hidden, not ready and at appearProgress 0 |
| Particles.NewParticleOnSphere | script.js:92-121 | with genuine draws the point lies on the sphere, with size in [0.5, 1.5), opacity in [0.2, 1), speed in [0.01, 0.03) |
| Particles.CreatedShape | script.js:86-128 | createParticles yields count particles, sorted ascending by targetZ, a permutation of the pushed ones, all hidden, not ready, at appearProgress 0 |
| Particles.Pushed | script.js:89-125 | one particle per draw, each with position, target and original equal, hidden, not ready and at appearProgress 0 |
| Particles.Created | script.js:86-128 | the created list has count entries, is sorted by targetZ and is a permutation of the pushed particles |
| Particles.CreatedOnSphere | script.js:92-97 | every created particle lies on the sphere |
| Particles.RotateParticle | script.js:136-161 | rotation reads only the original position and writes only the current position |
| Particles.RotatedParticleKeepsRadius | script.js:138-161 | with c^2 + s^2 = 1 a rotated particle stays at its original distance from the centre |
| Particles.DepthShadeBounds | script.js:238 | for z in [-radius, radius] the depth shade is in [1/2, 1] |
| Particles.ProjectParticle | script.js:234-238 | projection writes only the four screen fields |
| Particles.ProjectedOpacityBounds | script.js:238 | for z in [-radius, radius] screenOpacity is in [opacity/2, opacity] |
| Particles.ProjectionIdempotent | script.js:232-239 | projecting twice gives the same particle as projecting once |
| Particles.ProjectionExamples | script.js:234-238 | radius 200, depth 400: (200, 0, 0) is drawn 200 right of centre at full size and 3/4 opacity; (0, 0, 200) at the centre at 2/3 size and 1/2 opacity |
| Geometry.DistSq | script.js:482-485 | squared distances are non-negative and 0 between equal points |
| Geometry.YawKeepsNorm | script.js:143-148 | the yaw keeps x^2 + y^2 + z^2 |
| Geometry.PitchKeepsNorm | script.js:151-156 | the pitch keeps x^2 + y^2 + z^2 |
| Geometry.RotationKeepsNorm | script.js:142-156 | yaw then pitch keeps the distance from the centre |
| Geometry.RotationOrderMatters | script.js:142-156 | yaw and pitch do not commute, so the fixed order is observable |
| Sorting.SortBy | script.js:127 | the sort keeps length and multiset and leaves the list sorted by the key |
| Sorting.InsertSorted | script.js:252 | inserting into a sorted list keeps it sorted |
| Connections.ScanFrom | script.js:476-499 | the inner scan returns an index of the list or none |
| Connections.ScanFromClosest | script.js:476-499 | the scan finds the nearest candidate so far, strictly nearer than every lower-indexed candidate, and none only if there is none |
| Connections.NearestIsClosest | script.js:471-499 | the inner loop finds the anchor's nearest candidate, lowest index on ties, and none only when there is no candidate |
| Connections.Nearest | script.js:474-499 | a partner found by the inner loop is a candidate: another shown particle, closer than 60 and not yet linked to the anchor |
| Connections.GreedyFrom | script.js:466-517 | the outer loop only appends edges: the edges collected before it are kept as a prefix |
| Connections.GreedyEdges | script.js:461-518 | no particles give no edges, and the pair set holds exactly the pairs of the edges |
| Connections.GreedyFromKeepsInv | script.js:466-517 | the outer loop keeps the edge invariant from any sampled anchor on, including that every anchor passed which had a candidate got an edge |
| Connections.GreedyEdgesSound | script.js:461-518 | pair set equals the edges' pairs; no unordered pair twice; every edge joins two distinct shown particles closer than 60; anchors are the sampled 0, s, 2s, … in increasing order, at most ceil(n/s) edges; each edge goes to the anchor's nearest candidate; conversely, every sampled eligible anchor that had a candidate, given the edges of the anchors before it, is the anchor of an edge |
| Connections.EdgesAreNearest | script.js:476-499 | every edge's partner is at least as near as every candidate and strictly nearer than every lower-indexed candidate |
| Pointer.InitialDrag | script.js:9-31 | the constructor's drag state: not dragging, no rotation |
| Pointer.MouseDown | script.js:168-172 | dragging starts at (x, y) and the rotation is kept |
| Pointer.MouseMove | script.js:175-188 | without a drag nothing changes; with one the yaw and pitch change by 0.005 times the displacement and the position is remembered |
| Pointer.EndDrag | script.js:190-198 | the drag ends and position and rotation are kept |
| Pointer.TouchStart | script.js:201-207 | with touches it is mousedown at the first touch, without touches nothing changes |
| Pointer.TouchMove | script.js:209-220 | with touches it is mousemove at the first touch, without touches nothing changes |
| Pointer.AutoYaw | script.js:132-134 | the yaw grows by 0.002 only when not dragging; nothing else changes |
| Pointer.DragTelescopes | script.js:175-188 | during a drag, any moves and frames change the rotation by 0.005 times the displacement from the current to the last position |
| Pointer.LastPositionCons | script.js:175-188 | the last position seen after a first move is the one seen from that move on |
| Pointer.GestureRotation | script.js:168-198 | press, any moves and frames, release: the rotation changes by exactly 0.005 times the displacement from the press to the last position |
| Pointer.TicksOnlyYaw | script.js:132-134 | without a drag, k frames add k * 0.002 of yaw and nothing else |
| Scene.Init | script.js:3-61 | the constructor's state: particleCount = lineCount = the particle count for the width, initial phases and drag, no edges |
| Scene.CountFor | script.js:70-70 | 1000 particles exactly below the 768-pixel breakpoint, 2000 at or above it |
| Scene.RadiusFor | script.js:71-71 | radius 150 exactly below the breakpoint, 200 at or above it |
| Scene.DepthFor | script.js:78-78 | camera depth 300 below the breakpoint, 400 at or above it: always twice the radius |
| Scene.EmissionFrame | script.js:375-434 | the phases advance as `EmissionPhase`, the list keeps its length, and outside emission nothing changes |
| Scene.RotateAll | script.js:136-162 | every particle moved to its rotated original position |
| Scene.RotateFrame | script.js:130-163 | only the drag's yaw and the particles change |
| Scene.ProjectAll | script.js:231-240 | every particle projected |
| Scene.ProjectFrame | script.js:231-240 | only the particles change |
| Scene.DrawFrame | script.js:242-252 | only the particles change, as a permutation; when visible they end up sorted back to front |
| Scene.Frame | script.js:340-458 | a frame moves the phases by `Step` and the drag by `AutoYaw` |
| Scene.FrameKeepsLayout | script.js:340-458 | a frame keeps the list length, particleCount, lineCount and the centre |
| Scene.FrameKeepsConnections | script.js:420-433 | edges are rebuilt only on the frame emission completes |
| Scene.FrameKeepsValid | script.js:340-458 | a frame keeps sizes agreeing and the phase invariant |
| Scene.Resize | script.js:63-84 | as written: recentre; if the count or the radius differs, the particles become `Created` for the width's count and radius and only radius and depth of the phases change, to the width's values; otherwise particles and phases are kept; lineCount, drag and edges are always kept |
| Scene.ResizeWithLines | script.js:63-84 | the corrected resize: like `Resize` but with lineCount equal to the new particle count |
| Scene.InitValid | script.js:3-61 | the constructor's state is valid |
| Scene.InitSizesAgree | script.js:8-34 | at construction the stride of generateConnections is positive |
| Scene.ResizeWithLinesKeepsStride | script.js:466 | after the corrected resize the stride is exactly 1 |
| Scene.ResizeWithLinesKeepsValid | script.js:63-84 | the corrected resize keeps every reachable state valid |
| Scene.NarrowingResizeStallsStride | script.js:466 | as written, a wide-to-narrow resize leaves 1000 particles against 2000 lines and stride 0 |
| Scene.ResizeAfterGrowthRebuilds | script.js:74-83 | once scale-through has grown the radius, any resize rebuilds the particles and resets the depth |
| Scene.LateRebuildHidden | script.js:74-83 | a rebuild after emission leaves every particle hidden and emission off |
| Scene.HiddenStaysHidden | script.js:375-434 | after emission, hidden particles stay hidden in every later frame |
| Scene.EmissionShowsPrefix | script.js:385-418 | during emission the shown particles are a prefix of the list |
| Scene.CompletionFrame | script.js:420-433 | the completing frame shows every particle, starts connecting and builds a sound edge set |
| Scene.FrameOrdersByDepth | script.js:252 | every visible frame leaves the list sorted back to front by current z |
| Easing.EaseInOutQuad | script.js:521-523 | the curve maps 0, 1/2 and 1 to themselves |
| Easing.EaseSymmetric | script.js:521-523 | the curve is point-symmetric about (1/2, 1/2) |
| Easing.EaseMonotone | script.js:521-523 | on [0, 1] the curve rises monotonically and stays in [0, 1] |

## Left out

- Canvas output: clearing, the connection lines, the particle dots and all
  drawing state of `drawParticles` are output only; its in-place sort of
  the particle list is modelled.
- The constructor's first `animate()` call, `requestAnimationFrame` and the
  listener registration are scheduling; `Animate` models one call.
- The `setTimeout` that starts the caption and the callback call are
  recorded as events; the caption animation itself is not part of this model.
- Floating point: all numbers are exact reals, so frame counts such as 400
  and 499 hold for exact arithmetic; accumulated rounding of 0.0025, 0.01
  and 0.001 is not modelled.
- Earth.ParticleEarth.ProjectParticles: requires a non-zero radius and no
  particle in the camera plane (`depth + z != 0`), where the source divides
  by zero and gets Infinity or NaN.
- Earth.ParticleEarth.GenerateConnections: requires a stride of at least 1;
  with stride 0 the source loops forever (see Findings).
- `Math.random`, `Math.acos`, `Math.sin`, `Math.cos` are parameters; the
  sphere lemmas assume the supplied values satisfy sin^2 + cos^2 = 1.
- Connections store the indices of their two particles at generation time
  instead of references to the particle objects; since drawParticles re-sorts
  the list each frame, an index no longer names the same particle later,
  while the source's reference would.
- Fields only the canvas drawing reads (`lineOpacity`, `lineWidth`,
  `lineColor`), fields nothing reads (`targetRadius`, `targetDepth`,
  `scaleSpeed`, `fadeOutSpeed`, `isEntering`, `isExiting`, `scaleDirection`,
  `exitSpeed`, `enterDepth`, `exitDepth`) and the canvas size are not
  modelled.
- `easeInOutQuad` is modelled though nothing calls it.

## Behaviour of the code worth noting

- The draw step sorts `this.particles` in place on every visible frame
  (`Scene.FrameOrdersByDepth`), so the ascending-z order of creation does
  not survive, and the emission thresholds, which go by list index, follow
  the current depth order.
- A resize that rebuilds the particles does not reset the phases
  (`Scene.Resize`, `Scene.LateRebuildHidden`): after emission the new
  particles stay hidden for good (`Scene.HiddenStaysHidden`).
- With four particles at emission progress 0.5 none of them is shown
  (`Emission.FourParticlesAtHalf`): a particle is shown only above
  appearProgress 0.5, and the first one is exactly at 0.5.
- The projection of (200, 0, 0) with radius 200 and depth 400 lands 200 to
  the right of the centre at opacity 3/4 (`Particles.ProjectionExamples`).
- `startFadingOut` only stops the fade-in; no frame lowers alpha except the
  one on which scale-through vanishes (`Controller.FadeOutFreezesAlpha`).

## Findings

| source | as written | input that shows it | evidently intended | confidence | as-written member | corrected member |
|---|---|---|---|---|---|---|
| script.js:63-84 | resizeCanvas changes particleCount but never lineCount, so the stride `floor(particles.length / lineCount)` of generateConnections (script.js:466) can be 0 | construct at width >= 768 (2000 particles, lineCount 2000), resize to width < 768 (1000 particles): stride floor(1000 / 2000) = 0, and the loop `i += 0` never ends once emission completes | lineCount follows the particle count, as the constructor sets it | high; not executed | Scene.NarrowingResizeStallsStride | Scene.ResizeWithLinesKeepsStride |
