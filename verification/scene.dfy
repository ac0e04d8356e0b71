/**
 * The whole state of a ParticleEarth and one call of animate()
 * (script.js:340-457) as a function of it, with resizeCanvas
 * (script.js:63-84) and the constructor's initial state (script.js:3-61).
 * The class in module Earth performs these steps in place; this module says
 * what each of them computes.
 */
module Scene {
  import opened Wrappers
  import opened Geometry
  import opened Sorting
  import opened Particles
  import opened Emission
  import opened Connections
  import opened Controller
  import opened Pointer

  /** Viewports narrower than this get the small sphere. */
  const NarrowWidth: nat := 768

  datatype EarthState = EarthState(
    phases: Phases, drag: DragState, particles: seq<Particle>,
    particleCount: nat, lineCount: nat, centerX: real, centerY: real,
    connections: seq<Connection>, connectedPairs: set<Pair>)

  /** particleCount (and lineCount at construction) for a viewport width. */
  function CountFor(width: nat): (r: nat)
    ensures r == 1000 <==> width < NarrowWidth
    ensures r == 2000 <==> width >= NarrowWidth
  {
    if width < NarrowWidth then 1000 else 2000
  }

  /** The earth's radius for a viewport width. */
  function RadiusFor(width: nat): (r: real)
    ensures r == 150.0 <==> width < NarrowWidth
    ensures r == 200.0 <==> width >= NarrowWidth
  {
    if width < NarrowWidth then 150.0 else 200.0
  }

  /** The camera depth for a viewport width: always twice the radius. */
  function DepthFor(width: nat): (r: real)
    ensures r == 2.0 * RadiusFor(width)
    ensures r == 300.0 <==> width < NarrowWidth
  {
    if width < NarrowWidth then 300.0 else 400.0
  }

  /**
   * The state the constructor builds before its first animate() call: the
   * sizes of the viewport, all phase fields at their initial values, and
   * freshly created particles.
   */
  function Init(width: nat, height: nat, draw: nat -> Sample): (s: EarthState)
    ensures s.particleCount == s.lineCount == |s.particles| == CountFor(width)
    ensures s.phases == Initial(RadiusFor(width), DepthFor(width))
    ensures s.drag == InitialDrag() && s.connections == [] && s.connectedPairs == {}
  {
    EarthState(Initial(RadiusFor(width), DepthFor(width)), InitialDrag(),
               Created(CountFor(width), RadiusFor(width), draw),
               CountFor(width), CountFor(width), width as real / 2.0, height as real / 2.0,
               [], {})
  }

  /**
   * The emission block (script.js:375-432): advance the progress, run the
   * per-particle rule over the list, and on completion reveal every particle
   * and build the connections.
   */
  function EmissionFrame(s: EarthState): (r: EarthState)
    requires CompletesEmission(s.phases) ==> StrideOk(|s.particles|, s.lineCount)
    ensures r.phases == EmissionPhase(s.phases)
    ensures |r.particles| == |s.particles|
    ensures !s.phases.isEmitting ==> r == s
  {
    if !s.phases.isEmitting then s
    else
      var c := EmissionPhase(s.phases);
      var ps := EmitAll(s.particles, c.emissionProgress);
      if c.emissionProgress >= 1.0 then
        var shown := RevealAll(ps);
        var (conns, pairs) := GreedyEdges(shown, s.lineCount);
        s.(phases := c, particles := shown, connections := conns, connectedPairs := pairs)
      else s.(phases := c, particles := ps)
  }

  /** This frame's emission block reaches progress 1. */
  predicate CompletesEmission(c: Phases)
  {
    c.isEmitting && !EmissionPhase(c).isEmitting
  }

  /** Every particle turned by yaw (cy, sy) and then pitch (cx, sx). */
  function RotateAll(ps: seq<Particle>, cy: real, sy: real, cx: real, sx: real): (r: seq<Particle>)
    ensures |r| == |ps|
    ensures forall k :: 0 <= k < |ps| ==> r[k] == ps[k].(pos := RotateYX(ps[k].original, cy, sy, cx, sx))
  {
    seq(|ps|, k requires 0 <= k < |ps| => RotateParticle(ps[k], cy, sy, cx, sx))
  }

  /** rotateParticles (script.js:130-162): auto-yaw, then rotate every particle. */
  function RotateFrame(s: EarthState, cosf: real -> real, sinf: real -> real): (r: EarthState)
    ensures r == s.(drag := AutoYaw(s.drag), particles := r.particles)
    ensures |r.particles| == |s.particles|
  {
    var d := AutoYaw(s.drag);
    s.(drag := d,
       particles := RotateAll(s.particles, cosf(d.rotationY), sinf(d.rotationY),
                              cosf(d.rotationX), sinf(d.rotationX)))
  }

  /** No particle sits in the camera plane, where the projection would divide by zero. */
  predicate Projectable(s: EarthState)
  {
    s.phases.radius != 0.0 && forall p :: p in s.particles ==> s.phases.depth + p.pos.z != 0.0
  }

  /** Every particle projected with camera distance `depth` around (centerX, centerY). */
  function ProjectAll(ps: seq<Particle>, depth: real, centerX: real, centerY: real, radius: real): (r: seq<Particle>)
    requires radius != 0.0 && forall p :: p in ps ==> depth + p.pos.z != 0.0
    ensures |r| == |ps|
    ensures forall k :: 0 <= k < |ps| ==> r[k] == ProjectParticle(ps[k], depth, centerX, centerY, radius)
  {
    seq(|ps|, k requires 0 <= k < |ps| => ProjectParticle(ps[k], depth, centerX, centerY, radius))
  }

  /** projectParticles (script.js:231-241). */
  function ProjectFrame(s: EarthState): (r: EarthState)
    requires Projectable(s)
    ensures r == s.(particles := r.particles)
    ensures |r.particles| == |s.particles|
  {
    s.(particles := ProjectAll(s.particles, s.phases.depth, s.centerX, s.centerY, s.phases.radius))
  }

  /** The sort key of script.js:252: larger z first. */
  function NegZ(p: Particle): real
  {
    -p.pos.z
  }

  /**
   * The part of drawParticles that changes state (script.js:242-252): when
   * the sphere is visible the particle list is reordered back to front.
   */
  function DrawFrame(s: EarthState): (r: EarthState)
    ensures r == s.(particles := r.particles)
    ensures multiset(r.particles) == multiset(s.particles) && |r.particles| == |s.particles|
    ensures s.phases.isVisible ==> SortedBy(r.particles, NegZ)
    ensures !s.phases.isVisible ==> r == s
  {
    if s.phases.isVisible then s.(particles := SortBy(s.particles, NegZ)) else s
  }

  /** The state in which projectParticles runs. */
  function BeforeProjection(s: EarthState, cosf: real -> real, sinf: real -> real): EarthState
    requires CompletesEmission(ScaleThrough(FadeIn(s.phases))) ==> StrideOk(|s.particles|, s.lineCount)
  {
    var s1 := s.(phases := ScaleThrough(FadeIn(s.phases)));
    var s2 := EmissionFrame(s1);
    RotateFrame(s2.(phases := ConnectionPhase(s2.phases)), cosf, sinf)
  }

  /**
   * animate() can run: if emission completes, the stride of the connection
   * loop is positive, and no particle ends up in the camera plane.
   */
  predicate FrameDefined(s: EarthState, cosf: real -> real, sinf: real -> real)
  {
    && (CompletesEmission(ScaleThrough(FadeIn(s.phases))) ==> StrideOk(|s.particles|, s.lineCount))
    && Projectable(BeforeProjection(s, cosf, sinf))
  }

  /**
   * One animate() call: fade-in, scale-through, emission, connection,
   * rotation, projection and the reorder of drawParticles, in that order.
   */
  function Frame(s: EarthState, cosf: real -> real, sinf: real -> real): (r: EarthState)
    requires FrameDefined(s, cosf, sinf)
    ensures r.phases == Step(s.phases)
    ensures r.drag == AutoYaw(s.drag)
  {
    DrawFrame(ProjectFrame(BeforeProjection(s, cosf, sinf)))
  }

  /** A frame keeps the sizes and the centre. */
  lemma FrameKeepsLayout(s: EarthState, cosf: real -> real, sinf: real -> real)
    requires FrameDefined(s, cosf, sinf)
    ensures var r := Frame(s, cosf, sinf);
            && |r.particles| == |s.particles|
            && r.particleCount == s.particleCount && r.lineCount == s.lineCount
            && r.centerX == s.centerX && r.centerY == s.centerY
  {
    var s3 := BeforeProjection(s, cosf, sinf);
    assert |s3.particles| == |s.particles| && s3.particleCount == s.particleCount;
    assert s3.lineCount == s.lineCount && s3.centerX == s.centerX && s3.centerY == s.centerY;
  }

  /** A frame rebuilds the connections only on the frame emission completes. */
  lemma FrameKeepsConnections(s: EarthState, cosf: real -> real, sinf: real -> real)
    requires FrameDefined(s, cosf, sinf)
    requires !CompletesEmission(ScaleThrough(FadeIn(s.phases)))
    ensures Frame(s, cosf, sinf).connections == s.connections
    ensures Frame(s, cosf, sinf).connectedPairs == s.connectedPairs
  {
    var s1 := s.(phases := ScaleThrough(FadeIn(s.phases)));
    var s2 := EmissionFrame(s1);
    assert s2.connections == s.connections && s2.connectedPairs == s.connectedPairs;
  }

  /**
   * resizeCanvas as written: recentre, and rebuild the particles (with the
   * radius and camera depth for the new width) only when the particle count
   * or the radius differs. lineCount keeps the value the constructor chose,
   * and the phases are not reset.
   */
  function Resize(s: EarthState, width: nat, height: nat, draw: nat -> Sample): (r: EarthState)
    ensures r.centerX == width as real / 2.0 && r.centerY == height as real / 2.0
    ensures r.lineCount == s.lineCount && r.drag == s.drag
    ensures r.connections == s.connections && r.connectedPairs == s.connectedPairs
    ensures r.particleCount == CountFor(width) && r.phases.radius == RadiusFor(width)
    ensures s.particleCount != CountFor(width) || s.phases.radius != RadiusFor(width) ==>
              && r.particles == Created(CountFor(width), RadiusFor(width), draw)
              && r.phases == s.phases.(radius := RadiusFor(width), depth := DepthFor(width))
    ensures s.particleCount == CountFor(width) && s.phases.radius == RadiusFor(width) ==>
              r.particles == s.particles && r.phases == s.phases
  {
    var s1 := s.(centerX := width as real / 2.0, centerY := height as real / 2.0);
    if s.particleCount != CountFor(width) || s.phases.radius != RadiusFor(width) then
      s1.(particleCount := CountFor(width),
          phases := s.phases.(radius := RadiusFor(width), depth := DepthFor(width)),
          particles := Created(CountFor(width), RadiusFor(width), draw))
    else s1
  }

  /** The resize that also keeps lineCount in step with the viewport, as the constructor sets it. */
  function ResizeWithLines(s: EarthState, width: nat, height: nat, draw: nat -> Sample): (r: EarthState)
    ensures r.lineCount == r.particleCount == CountFor(width)
    ensures r == Resize(s, width, height, draw).(lineCount := r.lineCount)
  {
    Resize(s, width, height, draw).(lineCount := CountFor(width))
  }

  /** The sizes agree: one line per particle, and the list has particleCount entries. */
  predicate SizesAgree(s: EarthState)
  {
    |s.particles| == s.particleCount == s.lineCount && s.particleCount > 0
  }

  /**
   * The sizes agree and the phases are consistent. The constructor, animate()
   * and the corrected resize keep it; resizeCanvas as written can break it
   * (NarrowingResizeStallsStride).
   */
  ghost predicate ValidState(s: EarthState)
  {
    SizesAgree(s) && PhaseInv(s.phases)
  }

  lemma InitValid(width: nat, height: nat, draw: nat -> Sample)
    ensures ValidState(Init(width, height, draw))
  {
  }

  lemma InitSizesAgree(width: nat, height: nat, draw: nat -> Sample)
    ensures SizesAgree(Init(width, height, draw))
    ensures StrideOk(|Init(width, height, draw).particles|, Init(width, height, draw).lineCount)
  {
  }

  /**
   * With lineCount updated on resize, the sizes always agree, so the
   * connection loop's stride is 1 whatever the sequence of resizes.
   */
  lemma ResizeWithLinesKeepsStride(s: EarthState, width: nat, height: nat, draw: nat -> Sample)
    requires SizesAgree(s)
    ensures SizesAgree(ResizeWithLines(s, width, height, draw))
    ensures var r := ResizeWithLines(s, width, height, draw);
            StrideOk(|r.particles|, r.lineCount) && Stride(|r.particles|, r.lineCount) == 1
  {
    var r := Resize(s, width, height, draw);
    if s.particleCount != CountFor(width) || s.phases.radius != RadiusFor(width) {
      CreatedShape(CountFor(width), RadiusFor(width), draw);
    }
    assert |r.particles| == CountFor(width);
  }

  /** The corrected resize keeps every reachable state valid. */
  lemma ResizeWithLinesKeepsValid(s: EarthState, width: nat, height: nat, draw: nat -> Sample)
    requires ValidState(s)
    ensures ValidState(ResizeWithLines(s, width, height, draw))
  {
    ResizeWithLinesKeepsStride(s, width, height, draw);
    var c := ResizeWithLines(s, width, height, draw).phases;
    assert c == s.phases || c == s.phases.(radius := RadiusFor(width), depth := DepthFor(width));
  }

  /** animate() keeps every reachable state valid. */
  lemma FrameKeepsValid(s: EarthState, cosf: real -> real, sinf: real -> real)
    requires FrameDefined(s, cosf, sinf) && ValidState(s)
    ensures ValidState(Frame(s, cosf, sinf))
  {
    FrameKeepsLayout(s, cosf, sinf);
    StepKeepsInv(s.phases);
  }

  /**
   * As written, a wide viewport narrowed below 768 pixels leaves 1000
   * particles against 2000 lines: the stride floor(1000 / 2000) is 0, and
   * the connection loop would never advance past anchor 0.
   */
  lemma NarrowingResizeStallsStride(width0: nat, height0: nat, width: nat, height: nat, draw: nat -> Sample)
    requires width0 >= NarrowWidth && width < NarrowWidth
    ensures var r := Resize(Init(width0, height0, draw), width, height, draw);
            |r.particles| == 1000 && r.lineCount == 2000
            && Stride(|r.particles|, r.lineCount) == 0 && !StrideOk(|r.particles|, r.lineCount)
  {
    CreatedShape(1000, 150.0, draw);
  }

  /**
   * Once the radius has grown under scale-through, any resize rebuilds the
   * particles and puts radius and depth back to the viewport's values.
   */
  lemma ResizeAfterGrowthRebuilds(s: EarthState, width: nat, height: nat, draw: nat -> Sample)
    requires s.phases.radius > 200.0
    ensures Resize(s, width, height, draw).particles == Created(CountFor(width), RadiusFor(width), draw)
    ensures Resize(s, width, height, draw).phases.depth == DepthFor(width)
  {
  }

  /** No particle is shown. */
  ghost predicate AllHidden(ps: seq<Particle>)
  {
    forall k :: 0 <= k < |ps| ==> !ps[k].isVisible
  }

  /**
   * A resize that rebuilds the particles after emission has finished leaves
   * them all hidden, and no later frame shows any of them: the emission
   * block that would reveal them does not run again.
   */
  lemma LateRebuildHidden(s: EarthState, width: nat, height: nat, draw: nat -> Sample)
    requires !s.phases.isEmitting
    requires s.particleCount != CountFor(width) || s.phases.radius != RadiusFor(width)
    ensures AllHidden(Resize(s, width, height, draw).particles)
    ensures !Resize(s, width, height, draw).phases.isEmitting
  {
    CreatedShape(CountFor(width), RadiusFor(width), draw);
  }

  lemma HiddenStaysHidden(s: EarthState, cosf: real -> real, sinf: real -> real)
    requires FrameDefined(s, cosf, sinf)
    requires !s.phases.isEmitting && AllHidden(s.particles)
    ensures !Frame(s, cosf, sinf).phases.isEmitting && AllHidden(Frame(s, cosf, sinf).particles)
  {
    var s3 := BeforeProjection(s, cosf, sinf);
    assert AllHidden(s3.particles);
    var s4 := ProjectFrame(s3);
    assert AllHidden(s4.particles);
    var r := DrawFrame(s4);
    forall k | 0 <= k < |r.particles|
      ensures !r.particles[k].isVisible
    {
      assert r.particles[k] in multiset(s4.particles);
    }
  }

  /**
   * During emission the shown particles are always a prefix of the list:
   * if particle j is shown, so is every particle before it.
   */
  lemma EmissionShowsPrefix(s: EarthState)
    requires s.phases.isEmitting && !CompletesEmission(s.phases)
    ensures var r := EmissionFrame(s);
            forall i, j :: 0 <= i < j < |r.particles| && r.particles[j].isVisible ==> r.particles[i].isVisible
  {
    var c := EmissionPhase(s.phases);
    EmissionOrdered(s.particles, c.emissionProgress);
  }

  /**
   * The frame on which emission completes shows every particle, fully grown
   * and ready, starts the connection phase, and builds a sound set of edges:
   * the pair set records exactly the edges, no pair repeats, and every edge
   * joins two distinct shown particles closer than MaxLineDistance.
   */
  lemma CompletionFrame(s: EarthState)
    requires CompletesEmission(s.phases) && StrideOk(|s.particles|, s.lineCount)
    ensures var r := EmissionFrame(s);
            && r.phases.isConnecting && !r.phases.isEmitting
            && (forall k :: 0 <= k < |r.particles| ==>
                  r.particles[k].isVisible && r.particles[k].isReady && r.particles[k].appearProgress == 1.0)
            && r.connectedPairs == PairsOf(r.connections)
            && NoDuplicatePairs(r.connections)
            && (forall k :: 0 <= k < |r.connections| ==> ValidEdge(r.particles, r.connections[k]))
  {
    var r := EmissionFrame(s);
    GreedyEdgesSound(r.particles, s.lineCount);
  }

  /**
   * Every frame on which the sphere is visible leaves the list ordered back
   * to front by the current z, so from the second frame on the emission
   * thresholds follow depth on screen rather than the south-to-north order
   * createParticles set up.
   */
  lemma FrameOrdersByDepth(s: EarthState, cosf: real -> real, sinf: real -> real)
    requires FrameDefined(s, cosf, sinf)
    requires Step(s.phases).isVisible
    ensures SortedBy(Frame(s, cosf, sinf).particles, NegZ)
  {
    var s3 := BeforeProjection(s, cosf, sinf);
    assert ProjectFrame(s3).phases == Step(s.phases);
  }
}
