/**
 * The phase fields of ParticleEarth and the part of animate() that updates
 * them (script.js:340-451), with startScaling and startFadingOut
 * (script.js:526-545). Particles are left to module Scene: nothing in this
 * module reads them, so the frame-by-frame lemmas here hold whatever the
 * particles do.
 */
module Controller {
  import opened Wrappers

  const FadeSpeed: real := 0.001
  const EmissionSpeed: real := 0.0025
  const ConnectionSpeed: real := 0.01
  /** enterSpeed and depthDirection as startScaling sets them. */
  const EnterSpeed: real := 5.0
  const EnterDirection: real := -1.0
  /** The depth at or below which the camera has passed through the sphere. */
  const VanishDepth: real := -200.0

  /** Identifies a callback handed to startScaling. */
  type CallbackId = nat

  /**
   * Observable hand-offs: the setTimeout that will start the caption typing
   * (script.js:447-449) and a call of the callback given to startScaling
   * (script.js:365-369).
   */
  datatype Event = TextAnimationScheduled | EarthDisappeared(callback: CallbackId)

  /**
   * enterSpeed and depthDirection are undefined in the source until
   * startScaling runs; nothing reads them before, and the model starts them at 0.
   */
  datatype Phases = Phases(
    alpha: real, isFadingOut: bool,
    isScaling: bool, radius: real, depth: real, enterSpeed: real, depthDirection: real,
    isVisible: bool, onEarthDisappeared: Option<CallbackId>,
    isEmitting: bool, emissionProgress: real,
    isConnecting: bool, connectionProgress: real,
    events: seq<Event>)

  /** The phase fields as the constructor leaves them. */
  function Initial(radius: real, depth: real): (r: Phases)
    ensures r.radius == radius && r.depth == depth
    ensures r.alpha == 0.0 && !r.isFadingOut && !r.isScaling && r.isVisible
    ensures r.isEmitting && r.emissionProgress == 0.0 && !r.isConnecting
    ensures r.events == [] && r.onEarthDisappeared.None?
  {
    Phases(0.0, false, false, radius, depth, 0.0, 0.0, true, None,
           true, 0.0, false, 0.0, [])
  }

  function TextCount(es: seq<Event>): nat
  {
    if es == [] then 0
    else TextCount(es[..|es| - 1]) + (if es[|es| - 1] == TextAnimationScheduled then 1 else 0)
  }

  function VanishCount(es: seq<Event>): nat
  {
    if es == [] then 0
    else VanishCount(es[..|es| - 1]) + (if es[|es| - 1].EarthDisappeared? then 1 else 0)
  }

  lemma CountsAppend(es: seq<Event>, e: Event)
    ensures TextCount(es + [e]) == TextCount(es) + (if e == TextAnimationScheduled then 1 else 0)
    ensures VanishCount(es + [e]) == VanishCount(es) + (if e.EarthDisappeared? then 1 else 0)
  {
    assert (es + [e])[..|es|] == es;
  }

  /** A progress value clamped at 1. */
  function Min1(x: real): real
  {
    if x > 1.0 then 1.0 else x
  }

  /** Fade-in (script.js:342-347). */
  function FadeIn(c: Phases): (r: Phases)
    ensures r == c.(alpha := r.alpha)
    ensures 0.0 <= c.alpha <= 1.0 ==> 0.0 <= r.alpha <= 1.0
    ensures r.alpha >= c.alpha
    ensures c.isFadingOut ==> r.alpha == c.alpha
    ensures !c.isFadingOut && c.alpha < 1.0 ==> r.alpha > c.alpha
  {
    if !c.isFadingOut && c.alpha < 1.0 then
      var a := c.alpha + FadeSpeed;
      c.(alpha := if a > 1.0 then 1.0 else a)
    else c
  }

  /** Scale-through (script.js:350-372): grow, move the camera, and vanish past VanishDepth. */
  function ScaleThrough(c: Phases): (r: Phases)
    ensures !c.isScaling ==> r == c
    ensures c.isScaling ==> r.radius == c.radius + c.enterSpeed
    ensures c.isScaling ==> r.depth == c.depth + c.depthDirection * c.enterSpeed * 2.0
    ensures r.isScaling != c.isScaling ==> r.depth <= VanishDepth && r.alpha == 0.0 && !r.isVisible
    ensures r.isScaling == c.isScaling ==> r.alpha == c.alpha && r.isVisible == c.isVisible
    ensures r == c.(radius := r.radius, depth := r.depth, isScaling := r.isScaling, alpha := r.alpha,
                    isVisible := r.isVisible, onEarthDisappeared := r.onEarthDisappeared, events := r.events)
  {
    if !c.isScaling then c
    else
      var moved := c.(radius := c.radius + c.enterSpeed,
                      depth := c.depth + c.depthDirection * c.enterSpeed * 2.0);
      if moved.depth <= VanishDepth then
        var hidden := moved.(isScaling := false, alpha := 0.0, isVisible := false);
        match hidden.onEarthDisappeared
        case Some(cb) => hidden.(events := hidden.events + [EarthDisappeared(cb)], onEarthDisappeared := None)
        case None => hidden
      else moved
  }

  /** The progress part of the emission block (script.js:375-382, 420-431). */
  function EmissionPhase(c: Phases): (r: Phases)
    ensures !c.isEmitting ==> r == c
  {
    if !c.isEmitting then c
    else
      var ep := c.emissionProgress + EmissionSpeed;
      var ep' := if ep > 1.0 then 1.0 else ep;
      if ep' >= 1.0 then c.(emissionProgress := ep', isEmitting := false, isConnecting := true)
      else c.(emissionProgress := ep')
  }

  /** The connection block (script.js:437-451). */
  function ConnectionPhase(c: Phases): (r: Phases)
    ensures !c.isConnecting ==> r == c
  {
    if !c.isConnecting then c
    else
      var cp := c.connectionProgress + ConnectionSpeed;
      if cp >= 1.0 then
        c.(connectionProgress := 1.0, isConnecting := false, events := c.events + [TextAnimationScheduled])
      else c.(connectionProgress := cp)
  }

  /**
   * During emission, a frame's emission update adds EmissionSpeed clamped at
   * 1; emission ends exactly when the progress reaches 1, and then connecting
   * starts.
   */
  lemma EmissionPhaseSpec(c: Phases)
    requires c.isEmitting
    ensures EmissionPhase(c).emissionProgress == Min1(c.emissionProgress + EmissionSpeed)
    ensures EmissionPhase(c).isEmitting <==> EmissionPhase(c).emissionProgress < 1.0
    ensures !EmissionPhase(c).isEmitting ==> EmissionPhase(c).isConnecting
    ensures EmissionPhase(c).isEmitting ==> EmissionPhase(c).isConnecting == c.isConnecting
  {
  }

  /**
   * During connection, a frame's connection update adds ConnectionSpeed
   * clamped at 1; connecting ends exactly when the progress reaches 1, and
   * exactly then the caption hand-off is appended to the events.
   */
  lemma ConnectionPhaseSpec(c: Phases)
    requires c.isConnecting
    ensures ConnectionPhase(c).connectionProgress == Min1(c.connectionProgress + ConnectionSpeed)
    ensures ConnectionPhase(c).isConnecting <==> ConnectionPhase(c).connectionProgress < 1.0
    ensures ConnectionPhase(c).events
         == c.events + (if ConnectionPhase(c).isConnecting then [] else [TextAnimationScheduled])
  {
  }

  /** The phase updates of one animate() call, in source order. */
  function Step(c: Phases): Phases
  {
    ConnectionPhase(EmissionPhase(ScaleThrough(FadeIn(c))))
  }

  /** k consecutive frames. */
  function Run(c: Phases, k: nat): Phases
    decreases k
  {
    if k == 0 then c else Run(Step(c), k - 1)
  }

  /** startScaling(callback); an absent callback is None. */
  function StartScaling(c: Phases, callback: Option<CallbackId>): (r: Phases)
    ensures r.isScaling && r.isVisible && r.onEarthDisappeared == callback
    ensures r.enterSpeed == EnterSpeed && r.depthDirection == EnterDirection
    ensures r == c.(isScaling := true, enterSpeed := EnterSpeed, depthDirection := EnterDirection,
                    isVisible := true, onEarthDisappeared := callback)
  {
    c.(isScaling := true, enterSpeed := EnterSpeed, depthDirection := EnterDirection,
       isVisible := true, onEarthDisappeared := callback)
  }

  function StartFadingOut(c: Phases): (r: Phases)
    ensures r.isFadingOut && r == c.(isFadingOut := true)
  {
    c.(isFadingOut := true)
  }

  /** Emission and connection are both over. */
  predicate Done(c: Phases)
  {
    !c.isEmitting && !c.isConnecting
  }

  /**
   * The phase invariant: progresses stay in [0, 1]; emission comes first and
   * ends at progress 1; connection runs only after it and ends at progress 1;
   * the caption hand-off has been scheduled once exactly when both are over.
   */
  ghost predicate PhaseInv(c: Phases)
  {
    && 0.0 <= c.alpha <= 1.0
    && c.radius > 0.0 && c.enterSpeed >= 0.0
    && 0.0 <= c.emissionProgress <= 1.0
    && 0.0 <= c.connectionProgress <= 1.0
    && (c.isEmitting ==> c.emissionProgress < 1.0 && !c.isConnecting && c.connectionProgress == 0.0)
    && (!c.isEmitting ==> c.emissionProgress == 1.0)
    && (c.isConnecting ==> c.connectionProgress < 1.0)
    && (Done(c) ==> c.connectionProgress == 1.0)
    && TextCount(c.events) == (if Done(c) then 1 else 0)
  }

  lemma InitialInv(radius: real, depth: real)
    requires radius > 0.0
    ensures PhaseInv(Initial(radius, depth))
  {
  }

  function Pending(c: Phases): nat
  {
    if c.onEarthDisappeared.Some? then 1 else 0
  }

  /**
   * Scale-through never schedules the caption, and it fires the pending
   * callback at most once: fired plus pending callbacks stay constant.
   */
  lemma ScaleThroughCounts(c: Phases)
    ensures TextCount(ScaleThrough(c).events) == TextCount(c.events)
    ensures VanishCount(ScaleThrough(c).events) + Pending(ScaleThrough(c)) == VanishCount(c.events) + Pending(c)
  {
    if c.isScaling && c.onEarthDisappeared.Some? {
      CountsAppend(c.events, EarthDisappeared(c.onEarthDisappeared.value));
    }
  }

  lemma ConnectionPhaseCounts(c: Phases)
    ensures VanishCount(ConnectionPhase(c).events) == VanishCount(c.events)
    ensures TextCount(ConnectionPhase(c).events)
         == TextCount(c.events) + (if c.isConnecting && !ConnectionPhase(c).isConnecting then 1 else 0)
  {
    if c.isConnecting && c.connectionProgress + ConnectionSpeed >= 1.0 {
      CountsAppend(c.events, TextAnimationScheduled);
    }
  }

  lemma ScaleThroughKeepsInv(c: Phases)
    requires PhaseInv(c)
    ensures PhaseInv(ScaleThrough(c))
  {
    ScaleThroughCounts(c);
  }

  lemma EmissionPhaseKeepsInv(c: Phases)
    requires PhaseInv(c)
    ensures PhaseInv(EmissionPhase(c))
  {
  }

  lemma ConnectionPhaseKeepsInv(c: Phases)
    requires PhaseInv(c)
    ensures PhaseInv(ConnectionPhase(c))
  {
    ConnectionPhaseCounts(c);
  }

  /** Every frame keeps the phase invariant. */
  lemma StepKeepsInv(c: Phases)
    requires PhaseInv(c)
    ensures PhaseInv(Step(c))
  {
    var c1 := FadeIn(c);
    var c2 := ScaleThrough(c1);
    ScaleThroughKeepsInv(c1);
    EmissionPhaseKeepsInv(c2);
    ConnectionPhaseKeepsInv(EmissionPhase(c2));
  }

  /**
   * Phases run in order and never go back: progresses never decrease;
   * connecting starts only on the frame emission completes, with
   * emissionProgress exactly 1; the caption hand-off is scheduled only on the
   * frame connecting completes, with connectionProgress exactly 1.
   */
  lemma StepPhaseOrder(c: Phases)
    requires PhaseInv(c)
    ensures Step(c).emissionProgress >= c.emissionProgress
    ensures Step(c).connectionProgress >= c.connectionProgress
    ensures !c.isEmitting ==> !Step(c).isEmitting
    ensures Done(c) ==> Done(Step(c))
    ensures !c.isConnecting && Step(c).isConnecting ==>
              c.isEmitting && !Step(c).isEmitting && Step(c).emissionProgress == 1.0
    ensures TextCount(Step(c).events) != TextCount(c.events) ==>
              c.isConnecting && Done(Step(c)) && Step(c).connectionProgress == 1.0
              && TextCount(Step(c).events) == TextCount(c.events) + 1
  {
    var c2 := ScaleThrough(FadeIn(c));
    ScaleThroughCounts(FadeIn(c));
    EmissionPhaseKeepsInv(c2);
    ConnectionPhaseCounts(EmissionPhase(c2));
  }

  /** What one frame does to the emission and connection progress. */
  lemma StepProgress(c: Phases)
    requires PhaseInv(c)
    ensures c.isEmitting && c.emissionProgress + EmissionSpeed < 1.0 ==>
              Step(c).isEmitting && Step(c).emissionProgress == c.emissionProgress + EmissionSpeed
    ensures c.isEmitting && c.emissionProgress + EmissionSpeed >= 1.0 ==>
              Step(c).isConnecting && Step(c).connectionProgress == ConnectionSpeed
    ensures c.isConnecting && c.connectionProgress + ConnectionSpeed < 1.0 ==>
              Step(c).isConnecting && Step(c).connectionProgress == c.connectionProgress + ConnectionSpeed
    ensures c.isConnecting && c.connectionProgress + ConnectionSpeed >= 1.0 ==> Done(Step(c))
  {
    var c2 := ScaleThrough(FadeIn(c));
    assert c2.isEmitting == c.isEmitting && c2.emissionProgress == c.emissionProgress;
    assert c2.isConnecting == c.isConnecting && c2.connectionProgress == c.connectionProgress;
  }

  lemma {:induction false} RunKeepsInv(c: Phases, k: nat)
    requires PhaseInv(c)
    ensures PhaseInv(Run(c, k))
    decreases k
  {
    if k > 0 {
      StepKeepsInv(c);
      RunKeepsInv(Step(c), k - 1);
    }
  }

  /** However many frames run, the caption hand-off is scheduled at most once. */
  lemma TextScheduledAtMostOnce(c: Phases, k: nat)
    requires PhaseInv(c)
    ensures TextCount(Run(c, k).events) <= 1
  {
    RunKeepsInv(c, k);
  }

  lemma {:induction false} RunAdd(c: Phases, a: nat, b: nat)
    ensures Run(c, a + b) == Run(Run(c, a), b)
    decreases a
  {
    if a > 0 {
      RunAdd(Step(c), a - 1, b);
    }
  }

  /** While emission has not reached 1, each frame adds EmissionSpeed and nothing else moves on. */
  lemma {:induction false} EmissionFrames(c: Phases, k: nat)
    requires PhaseInv(c) && c.isEmitting
    requires c.emissionProgress + k as real * EmissionSpeed < 1.0
    ensures PhaseInv(Run(c, k)) && Run(c, k).isEmitting
    ensures Run(c, k).emissionProgress == c.emissionProgress + k as real * EmissionSpeed
    decreases k
  {
    if k > 0 {
      StepKeepsInv(c);
      StepProgress(c);
      EmissionFrames(Step(c), k - 1);
    }
  }

  /** While connection has not reached 1, each frame adds ConnectionSpeed. */
  lemma {:induction false} ConnectionFrames(c: Phases, k: nat)
    requires PhaseInv(c) && c.isConnecting
    requires c.connectionProgress + k as real * ConnectionSpeed < 1.0
    ensures PhaseInv(Run(c, k)) && Run(c, k).isConnecting
    ensures Run(c, k).connectionProgress == c.connectionProgress + k as real * ConnectionSpeed
    decreases k
  {
    if k > 0 {
      StepKeepsInv(c);
      StepProgress(c);
      ConnectionFrames(Step(c), k - 1);
    }
  }

  /** From the start of emission, connecting starts on frame 400, already one step in. */
  lemma EmissionTakes400Frames(c: Phases)
    requires PhaseInv(c) && c.isEmitting && c.emissionProgress == 0.0
    ensures Run(c, 399).isEmitting
    ensures Run(c, 400).isConnecting && Run(c, 400).connectionProgress == ConnectionSpeed
  {
    EmissionFrames(c, 399);
    var c399 := Run(c, 399);
    assert c399.emissionProgress + EmissionSpeed >= 1.0;
    StepProgress(c399);
    RunAdd(c, 399, 1);
  }

  /** From connectionProgress 0.01, the caption is scheduled on the 99th frame. */
  lemma ConnectionTakes99Frames(c: Phases)
    requires PhaseInv(c) && c.isConnecting && c.connectionProgress == ConnectionSpeed
    ensures PhaseInv(Run(c, 98)) && Run(c, 98).isConnecting
    ensures PhaseInv(Run(c, 99)) && Done(Run(c, 99))
  {
    ConnectionFrames(c, 98);
    var c98 := Run(c, 98);
    assert c98.connectionProgress + ConnectionSpeed >= 1.0;
    StepProgress(c98);
    RunAdd(c, 98, 1);
    RunKeepsInv(c, 99);
  }

  /** Frame 498 after the start of emission has no caption hand-off yet. */
  lemma NoHandOffBefore499(c: Phases)
    requires PhaseInv(c) && c.isEmitting && c.emissionProgress == 0.0
    ensures TextCount(Run(c, 498).events) == 0
  {
    EmissionTakes400Frames(c);
    RunKeepsInv(c, 400);
    var c400 := Run(c, 400);
    ConnectionTakes99Frames(c400);
    var c498 := Run(c400, 98);
    assert PhaseInv(c498) && !Done(c498);
    RunAdd(c, 400, 98);
  }

  /** Frame 499 after the start of emission ends the connection phase. */
  lemma HandOffAt499(c: Phases)
    requires PhaseInv(c) && c.isEmitting && c.emissionProgress == 0.0
    ensures PhaseInv(Run(c, 499)) && Done(Run(c, 499))
  {
    EmissionTakes400Frames(c);
    RunKeepsInv(c, 400);
    ConnectionTakes99Frames(Run(c, 400));
    RunAdd(c, 400, 99);
  }

  /**
   * In exact arithmetic, emission completes on frame 400 and the caption
   * hand-off is scheduled on frame 499, once, and never again.
   */
  lemma HandOffScheduledOnce(radius: real, depth: real, m: nat)
    requires radius > 0.0
    ensures Run(Initial(radius, depth), 399).isEmitting
    ensures Run(Initial(radius, depth), 400).isConnecting
    ensures TextCount(Run(Initial(radius, depth), 498).events) == 0
    ensures TextCount(Run(Initial(radius, depth), 499 + m).events) == 1
  {
    var c0 := Initial(radius, depth);
    EmissionTakes400Frames(c0);
    NoHandOffBefore499(c0);
    HandOffAt499(c0);
    var c499 := Run(c0, 499);
    DoneStaysDone(c499, m);
    RunKeepsInv(c499, m);
    RunAdd(c0, 499, m);
  }

  lemma {:induction false} DoneStaysDone(c: Phases, k: nat)
    requires PhaseInv(c) && Done(c)
    ensures Done(Run(c, k))
    decreases k
  {
    if k > 0 {
      StepPhaseOrder(c);
      StepKeepsInv(c);
      DoneStaysDone(Step(c), k - 1);
    }
  }

  lemma StartScalingKeepsInv(c: Phases, callback: Option<CallbackId>)
    requires PhaseInv(c)
    ensures PhaseInv(StartScaling(c, callback))
  {
  }

  lemma StartFadingOutKeepsInv(c: Phases)
    requires PhaseInv(c)
    ensures PhaseInv(StartFadingOut(c))
  {
  }

  /**
   * Emission and connection touch only their own fields, plus the event log
   * for the caption hand-off.
   */
  lemma LaterPhasesFrame(c: Phases)
    ensures var r := ConnectionPhase(EmissionPhase(c));
      r == c.(emissionProgress := r.emissionProgress, isEmitting := r.isEmitting,
              connectionProgress := r.connectionProgress, isConnecting := r.isConnecting,
              events := r.events)
  {
  }

  /**
   * Fading out only stops the fade-in: once isFadingOut is set it stays set
   * and a frame never raises alpha; the only frame that lowers it is the one
   * on which the camera passes VanishDepth, which sets it to 0.
   */
  lemma FadeOutFreezesAlpha(c: Phases)
    requires 0.0 <= c.alpha
    ensures 0.0 <= Step(c).alpha
    ensures c.isFadingOut ==> Step(c).isFadingOut && Step(c).alpha <= c.alpha
    ensures Step(c).alpha < c.alpha ==> c.isScaling && !Step(c).isScaling && Step(c).alpha == 0.0
  {
    var c1 := FadeIn(c);
    var c2 := ScaleThrough(c1);
    LaterPhasesFrame(c2);
    assert c1.isScaling == c.isScaling && c1.isFadingOut == c.isFadingOut && c1.alpha >= c.alpha;
  }

  lemma {:induction false} FadingOutNeverBrightens(c: Phases, k: nat)
    requires c.isFadingOut && 0.0 <= c.alpha
    ensures Run(c, k).isFadingOut && 0.0 <= Run(c, k).alpha <= c.alpha
    decreases k
  {
    if k > 0 {
      FadeOutFreezesAlpha(c);
      FadingOutNeverBrightens(Step(c), k - 1);
    }
  }

  /**
   * One frame fires the pending startScaling callback at most once: fired
   * plus pending stays constant, and the sphere never turns visible again.
   */
  lemma StepCallbackCount(c: Phases)
    ensures VanishCount(Step(c).events) + Pending(Step(c)) == VanishCount(c.events) + Pending(c)
    ensures Pending(Step(c)) <= Pending(c)
    ensures Step(c).isVisible ==> c.isVisible
  {
    var c1 := FadeIn(c);
    var c2 := ScaleThrough(c1);
    var c3 := EmissionPhase(c2);
    ScaleThroughCounts(c1);
    EmissionPhaseKeepsCallback(c2);
    ConnectionPhaseCounts(c3);
    ConnectionPhaseKeepsCallback(c3);
  }

  lemma EmissionPhaseKeepsCallback(c: Phases)
    ensures EmissionPhase(c).events == c.events
    ensures EmissionPhase(c).onEarthDisappeared == c.onEarthDisappeared
    ensures EmissionPhase(c).isVisible == c.isVisible
  {
  }

  lemma ConnectionPhaseKeepsCallback(c: Phases)
    ensures ConnectionPhase(c).onEarthDisappeared == c.onEarthDisappeared
    ensures ConnectionPhase(c).isVisible == c.isVisible
  {
  }

  /** Without another startScaling, the callback handed to it fires at most once. */
  lemma {:induction false} CallbackFiresAtMostOnce(c: Phases, k: nat)
    ensures VanishCount(Run(c, k).events) <= VanishCount(c.events) + Pending(c)
    ensures VanishCount(Run(c, k).events) + Pending(Run(c, k)) == VanishCount(c.events) + Pending(c)
    ensures Pending(Run(c, k)) <= Pending(c)
    ensures Run(c, k).isVisible ==> c.isVisible
    decreases k
  {
    if k > 0 {
      StepCallbackCount(c);
      CallbackFiresAtMostOnce(Step(c), k - 1);
    }
  }

  /** What one frame of scale-through does to radius and depth. */
  lemma StepScaling(c: Phases)
    requires c.isScaling
    ensures Step(c).radius == c.radius + c.enterSpeed
    ensures Step(c).depth == c.depth + c.depthDirection * c.enterSpeed * 2.0
    ensures Step(c).enterSpeed == c.enterSpeed && Step(c).depthDirection == c.depthDirection
    ensures Step(c).isScaling <==> Step(c).depth > VanishDepth
    ensures Step(c).isScaling ==> Step(c).onEarthDisappeared == c.onEarthDisappeared
                                  && Step(c).isVisible == c.isVisible
    ensures !Step(c).isScaling ==> !Step(c).isVisible && Step(c).alpha == 0.0
                                   && Step(c).onEarthDisappeared.None?
  {
    var c1 := FadeIn(c);
    var c2 := ScaleThrough(c1);
    LaterPhasesFrame(c2);
  }

  /** Each scaling frame adds 5 to the radius and takes 10 off the depth. */
  lemma {:induction false} ScalingFrames(c: Phases, k: nat)
    requires c.isScaling && c.enterSpeed == EnterSpeed && c.depthDirection == EnterDirection
    requires c.depth - 10.0 * k as real > VanishDepth
    ensures Run(c, k).isScaling && Run(c, k).enterSpeed == EnterSpeed
    ensures Run(c, k).depthDirection == EnterDirection
    ensures Run(c, k).depth == c.depth - 10.0 * k as real
    ensures Run(c, k).radius == c.radius + 5.0 * k as real
    ensures Run(c, k).isVisible == c.isVisible
    ensures Run(c, k).onEarthDisappeared == c.onEarthDisappeared
    decreases k
  {
    if k > 0 {
      StepScaling(c);
      ScalingFrames(Step(c), k - 1);
    }
  }

  /** Frame 60 after startScaling from depth 400 is the one that passes VanishDepth. */
  lemma VanishOnFrame60(s: Phases)
    requires s.isScaling && s.enterSpeed == EnterSpeed && s.depthDirection == EnterDirection
    requires s.depth == 400.0 && s.isVisible
    ensures Run(s, 59).isScaling && Run(s, 59).isVisible
    ensures Run(s, 60).radius == s.radius + 300.0
    ensures !Run(s, 60).isVisible && Run(s, 60).onEarthDisappeared.None?
  {
    ScalingFrames(s, 59);
    var s59 := Run(s, 59);
    StepScaling(s59);
    RunAdd(s, 59, 1);
  }

  /** With no callback pending, no frame fires one. */
  lemma NoPendingNoCallback(c: Phases, m: nat)
    requires c.onEarthDisappeared.None?
    ensures VanishCount(Run(c, m).events) == VanishCount(c.events)
    ensures Run(c, m).isVisible ==> c.isVisible
  {
    CallbackFiresAtMostOnce(c, m);
  }

  /**
   * From the default depth of 400, startScaling(callback) keeps the sphere
   * visible for 59 frames; frame 60 hides it and fires the callback, and no
   * later frame fires it again or shows the sphere.
   */
  lemma ScaleThroughTakes60Frames(c: Phases, callback: CallbackId, m: nat)
    requires c.depth == 400.0
    ensures Run(StartScaling(c, Some(callback)), 59).isScaling
    ensures Run(StartScaling(c, Some(callback)), 59).isVisible
    ensures Run(StartScaling(c, Some(callback)), 60).radius == c.radius + 300.0
    ensures !Run(StartScaling(c, Some(callback)), 60 + m).isVisible
    ensures VanishCount(Run(StartScaling(c, Some(callback)), 60 + m).events) == VanishCount(c.events) + 1
  {
    var s := StartScaling(c, Some(callback));
    VanishOnFrame60(s);
    CallbackFiresAtMostOnce(s, 60);
    NoPendingNoCallback(Run(s, 60), m);
    RunAdd(s, 60, m);
  }
}
