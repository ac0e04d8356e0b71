/**
 * The ParticleEarth class itself (script.js:2-546): the fields animate()
 * and the event handlers update in place, and each method proved to leave
 * the state that module Scene computes for it. The source's phase fields
 * are grouped in the record `phases` and its drag fields in `drag`; each
 * assignment to one of them in the source is a field update of the record
 * here. Drawing on the canvas is output and is not modelled; the reorder it
 * performs on the particle list is.
 */
module Earth {
  import opened Wrappers
  import opened Geometry
  import opened Sorting
  import opened Particles
  import opened Emission
  import opened Connections
  import opened Controller
  import opened Pointer
  import opened Scene

  class ParticleEarth {
    /** alpha, the scaling, emission and connection fields, and the callbacks (script.js:13-25, 41-48). */
    var phases: Phases
    /** isDragging, lastMouseX/Y and rotationX/Y (script.js:9-10, 28-31). */
    var drag: DragState
    // The sphere (script.js:6-8, 15-16, 34, 49-50).
    var particles: seq<Particle>
    var particleCount: nat
    var lineCount: nat
    var centerX: real
    var centerY: real
    var connections: seq<Connection>
    var connectedPairs: set<Pair>

    function State(): EarthState
      reads this
    {
      EarthState(phases, drag, particles, particleCount, lineCount, centerX, centerY,
                 connections, connectedPairs)
    }

    /**
     * The constructor up to its first animate() call: sizes from the viewport
     * width, initial phases, then createParticles.
     */
    constructor(width: nat, height: nat, draw: nat -> Sample)
      ensures State() == Init(width, height, draw)
    {
      var ps := CreateParticles(CountFor(width), RadiusFor(width), draw);
      phases := Initial(RadiusFor(width), DepthFor(width));
      drag := InitialDrag();
      particleCount, lineCount := CountFor(width), CountFor(width);
      centerX, centerY := width as real / 2.0, height as real / 2.0;
      connections, connectedPairs := [], {};
      particles := ps;
    }

    /**
     * createParticles (script.js:86-128): push `count` new particles on a sphere
     * of the given radius, then sort them by targetZ. The caller stores the list
     * in `particles`.
     */
    static method CreateParticles(count: nat, radius: real, draw: nat -> Sample) returns (ps: seq<Particle>)
      ensures ps == Created(count, radius, draw)
    {
      ps := [];
      var i := 0;
      while i < count
        invariant 0 <= i <= count && |ps| == i
        invariant forall k :: 0 <= k < i ==> ps[k] == NewParticle(radius, draw(k))
      {
        var s := draw(i);
        var v := Vec3(radius * s.sinPhi * s.cosTheta, radius * s.sinPhi * s.sinTheta, radius * CosPhi(s));
        ps := ps + [Particle(v, v, v, s.rSize * 1.0 + 0.5, s.rOpacity * 0.8 + 0.2, s.rSpeed * 0.02 + 0.01,
                             false, false, 0.0, 0.0, 0.0, 0.0, 0.0)];
        i := i + 1;
      }
      assert ps == Pushed(count, radius, draw);
      ps := SortBy(ps, TargetZ);
    }

    /** The fade-in block of animate() (script.js:342-347). */
    method UpdateFade()
      modifies this`phases
      ensures phases == FadeIn(old(phases))
    {
      if !phases.isFadingOut && phases.alpha < 1.0 {
        phases := phases.(alpha := phases.alpha + FadeSpeed);
        if phases.alpha > 1.0 {
          phases := phases.(alpha := 1.0);
        }
      }
    }

    /** The scale-through block of animate() (script.js:350-372). */
    method UpdateScaling()
      modifies this`phases
      ensures phases == ScaleThrough(old(phases))
    {
      if phases.isScaling {
        phases := phases.(radius := phases.radius + phases.enterSpeed);
        phases := phases.(depth := phases.depth + phases.depthDirection * phases.enterSpeed * 2.0);
        if phases.depth <= VanishDepth {
          phases := phases.(isScaling := false, alpha := 0.0, isVisible := false);
          if phases.onEarthDisappeared.Some? {
            phases := phases.(events := phases.events + [EarthDisappeared(phases.onEarthDisappeared.value)]);
            phases := phases.(onEarthDisappeared := None);
          }
        }
      }
    }

    /**
     * The emission block of animate() (script.js:375-432). The two flag
     * updates of the completing frame are made before the particle loops
     * here; neither loop reads them, so the resulting state is the same.
     */
    method UpdateEmission()
      requires CompletesEmission(phases) ==> StrideOk(|particles|, lineCount)
      modifies this`phases, this`particles, this`connections, this`connectedPairs
      ensures var r := EmissionFrame(old(State()));
              && phases == r.phases && particles == r.particles
              && connections == r.connections && connectedPairs == r.connectedPairs
    {
      if !phases.isEmitting {
        return;
      }
      AdvanceEmission();
      particles := EmitLoop(particles, phases.emissionProgress);
      if !phases.isEmitting {
        particles := RevealLoop(particles);
        connections, connectedPairs := GenerateConnections(particles, lineCount);
      }
    }

    /** The progress update of the emission block (script.js:377-382, 420-431). */
    method AdvanceEmission()
      modifies this`phases
      ensures phases == EmissionPhase(old(phases))
    {
      if !phases.isEmitting {
        return;
      }
      phases := phases.(emissionProgress := phases.emissionProgress + EmissionSpeed);
      if phases.emissionProgress > 1.0 {
        phases := phases.(emissionProgress := 1.0);
      }
      if phases.emissionProgress >= 1.0 {
        phases := phases.(isEmitting := false, isConnecting := true);
      }
    }

    /** The per-particle loop of the emission block (script.js:385-418). */
    static method EmitLoop(particles: seq<Particle>, ep: real) returns (ps: seq<Particle>)
      ensures ps == EmitAll(particles, ep)
    {
      var n := |particles|;
      ps := particles;
      var i := 0;
      while i < n
        invariant 0 <= i <= n && |ps| == n
        invariant forall k :: 0 <= k < i ==> ps[k] == EmitParticle(particles[k], k, n, ep)
        invariant forall k :: i <= k < n ==> ps[k] == particles[k]
      {
        ps := ps[i := EmitParticle(ps[i], i, n, ep)];
        i := i + 1;
      }
    }

    /** The forEach that ends emission (script.js:422-426). */
    static method RevealLoop(particles: seq<Particle>) returns (ps: seq<Particle>)
      ensures ps == RevealAll(particles)
    {
      ps := particles;
      var i := 0;
      while i < |ps|
        invariant 0 <= i <= |ps| && |ps| == |particles|
        invariant forall k :: 0 <= k < i ==> ps[k] == Reveal(particles[k])
        invariant forall k :: i <= k < |ps| ==> ps[k] == particles[k]
      {
        ps := ps[i := ps[i].(isVisible := true, isReady := true, appearProgress := 1.0)];
        i := i + 1;
      }
    }

    /**
     * generateConnections (script.js:461-518): for every stride-th anchor
     * that is shown, the nearest unlinked shown particle within
     * MaxLineDistance becomes its partner.
     */
    static method GenerateConnections(ps: seq<Particle>, lineCount: nat)
      returns (conns: seq<Connection>, pairs: set<Pair>)
      requires StrideOk(|ps|, lineCount)
      ensures (conns, pairs) == GreedyEdges(ps, lineCount)
    {
      var n := |ps|;
      var stride := n / lineCount;
      conns, pairs := [], {};
      var i := 0;
      while i < n
        invariant n > 0 ==> stride >= 1 && GreedyFrom(ps, stride, i, conns, pairs) == GreedyEdges(ps, lineCount)
        invariant n == 0 ==> conns == [] && pairs == {}
        decreases n - i
      {
        if ps[i].isVisible && ps[i].screenSize > 0.0 {
          var closest: Option<nat> := None;
          var closestDistSq := 0.0;
          var j := 0;
          while j < n
            invariant 0 <= j <= n
            invariant closest.Some? ==> closest.value < n && closestDistSq == DistSq(ps[i].pos, ps[closest.value].pos)
            invariant ScanFrom(ps, pairs, i, j, closest) == Nearest(ps, pairs, i)
          {
            if i != j && ps[j].isVisible && ps[j].screenSize > 0.0 {
              var d := DistSq(ps[i].pos, ps[j].pos);
              if (closest.None? || d < closestDistSq) && d < MaxLineDistance * MaxLineDistance
                 && (i, j) !in pairs && (j, i) !in pairs {
                closestDistSq := d;
                closest := Some(j);
              }
            }
            j := j + 1;
          }
          if closest.Some? {
            var k := closest.value;
            pairs := pairs + {(i, k)};
            conns := conns + [Connection(i, k, closestDistSq, ps[i].screenX, ps[i].screenY,
                                         ps[k].screenX, ps[k].screenY)];
          }
        }
        i := i + stride;
      }
    }

    /** The connection block of animate() (script.js:437-451). */
    method UpdateConnection()
      modifies this`phases
      ensures phases == ConnectionPhase(old(phases))
    {
      if phases.isConnecting {
        phases := phases.(connectionProgress := phases.connectionProgress + ConnectionSpeed);
        if phases.connectionProgress >= 1.0 {
          phases := phases.(connectionProgress := 1.0, isConnecting := false);
          phases := phases.(events := phases.events + [TextAnimationScheduled]);
        }
      }
    }

    /**
     * rotateParticles (script.js:130-162); `cosf` and `sinf` stand for
     * Math.cos and Math.sin.
     */
    method RotateParticles(cosf: real -> real, sinf: real -> real)
      modifies this`drag, this`particles
      ensures drag == AutoYaw(old(drag))
      ensures particles == RotateAll(old(particles), cosf(drag.rotationY), sinf(drag.rotationY),
                                     cosf(drag.rotationX), sinf(drag.rotationX))
    {
      if !drag.isDragging {
        drag := drag.(rotationY := drag.rotationY + RotationSpeed);
      }
      particles := RotateLoop(particles, cosf(drag.rotationY), sinf(drag.rotationY),
                              cosf(drag.rotationX), sinf(drag.rotationX));
    }

    /** The loop of rotateParticles, yaw then pitch on each particle's original position. */
    static method RotateLoop(particles: seq<Particle>, cosY: real, sinY: real, cosX: real, sinX: real)
      returns (ps: seq<Particle>)
      ensures ps == RotateAll(particles, cosY, sinY, cosX, sinX)
    {
      ps := particles;
      var i := 0;
      while i < |ps|
        invariant 0 <= i <= |ps| && |ps| == |particles|
        invariant forall k :: 0 <= k < i ==> ps[k] == RotateParticle(particles[k], cosY, sinY, cosX, sinX)
        invariant forall k :: i <= k < |ps| ==> ps[k] == particles[k]
      {
        var p := ps[i];
        var v := Yaw(p.original, cosY, sinY);
        v := Pitch(v, cosX, sinX);
        ps := ps[i := p.(pos := v)];
        i := i + 1;
      }
    }

    /** projectParticles (script.js:231-241). */
    method ProjectParticles()
      requires phases.radius != 0.0 && forall p :: p in particles ==> phases.depth + p.pos.z != 0.0
      modifies this`particles
      ensures particles == ProjectAll(old(particles), phases.depth, centerX, centerY, phases.radius)
    {
      particles := ProjectLoop(particles, phases.depth, centerX, centerY, phases.radius);
    }

    /** The loop of projectParticles. */
    static method ProjectLoop(particles: seq<Particle>, depth: real, centerX: real, centerY: real, radius: real)
      returns (ps: seq<Particle>)
      requires radius != 0.0 && forall p :: p in particles ==> depth + p.pos.z != 0.0
      ensures ps == ProjectAll(particles, depth, centerX, centerY, radius)
    {
      ps := particles;
      var i := 0;
      while i < |ps|
        invariant 0 <= i <= |ps| && |ps| == |particles|
        invariant forall k :: 0 <= k < i ==> ps[k] == ProjectParticle(particles[k], depth, centerX, centerY, radius)
        invariant forall k :: i <= k < |ps| ==> ps[k] == particles[k]
      {
        assert ps[i] in particles;
        ps := ps[i := ProjectParticle(ps[i], depth, centerX, centerY, radius)];
        i := i + 1;
      }
    }

    /** The state change of drawParticles (script.js:242-252): the back-to-front reorder. */
    method DrawParticles()
      modifies this`particles
      ensures phases.isVisible ==> particles == SortBy(old(particles), NegZ)
      ensures !phases.isVisible ==> particles == old(particles)
    {
      if !phases.isVisible {
        return;
      }
      particles := SortBy(particles, NegZ);
    }

    /** One animate() call (script.js:340-457). */
    method Animate(cosf: real -> real, sinf: real -> real)
      requires FrameDefined(State(), cosf, sinf)
      modifies this
      ensures State() == Frame(old(State()), cosf, sinf)
    {
      ghost var s0 := State();
      UpdateFade();
      UpdateScaling();
      ghost var s1 := s0.(phases := ScaleThrough(FadeIn(s0.phases)));
      assert State() == s1;
      UpdateEmission();
      ghost var s2 := EmissionFrame(s1);
      UpdateConnection();
      ghost var s3 := s2.(phases := ConnectionPhase(s2.phases));
      assert State() == s3;
      RotateParticles(cosf, sinf);
      ghost var s4 := RotateFrame(s3, cosf, sinf);
      assert State() == s4;
      ProjectParticles();
      assert State() == ProjectFrame(s4);
      DrawParticles();
    }

    /**
     * resizeCanvas (script.js:63-84) as written: lineCount keeps the value the
     * constructor chose.
     */
    method ResizeCanvas(width: nat, height: nat, draw: nat -> Sample)
      modifies this`centerX, this`centerY, this`particleCount, this`phases, this`particles
      ensures State() == Resize(old(State()), width, height, draw)
    {
      var newParticleCount := CountFor(width);
      var newRadius := RadiusFor(width);
      if particleCount != newParticleCount || phases.radius != newRadius {
        var ps := CreateParticles(newParticleCount, newRadius, draw);
        particleCount := newParticleCount;
        phases := phases.(radius := newRadius, depth := DepthFor(width));
        particles := ps;
      }
      centerX, centerY := width as real / 2.0, height as real / 2.0;
    }

    /** startScaling(callback) (script.js:526-540). */
    method StartScaling(callback: Option<CallbackId>)
      modifies this`phases
      ensures phases == Controller.StartScaling(old(phases), callback)
    {
      phases := phases.(isScaling := true, depthDirection := EnterDirection, enterSpeed := EnterSpeed);
      phases := phases.(isVisible := true, onEarthDisappeared := callback);
    }

    /** startFadingOut (script.js:543-545). */
    method StartFadingOut()
      modifies this`phases
      ensures phases == Controller.StartFadingOut(old(phases))
    {
      phases := phases.(isFadingOut := true);
    }

    /** mousedown (script.js:168-172). */
    method OnMouseDown(x: real, y: real)
      modifies this`drag
      ensures drag == MouseDown(old(drag), x, y)
    {
      drag := drag.(isDragging := true, lastX := x, lastY := y);
    }

    /** mousemove (script.js:175-188). */
    method OnMouseMove(x: real, y: real)
      modifies this`drag
      ensures drag == MouseMove(old(drag), x, y)
    {
      if drag.isDragging {
        var deltaX := x - drag.lastX;
        var deltaY := y - drag.lastY;
        drag := drag.(rotationY := drag.rotationY + deltaX * DragSpeed);
        drag := drag.(rotationX := drag.rotationX + deltaY * DragSpeed);
        drag := drag.(lastX := x, lastY := y);
      }
    }

    /** mouseup and mouseleave (script.js:190-198). */
    method OnMouseUp()
      modifies this`drag
      ensures drag == EndDrag(old(drag))
    {
      drag := drag.(isDragging := false);
    }

    method OnMouseLeave()
      modifies this`drag
      ensures drag == EndDrag(old(drag))
    {
      drag := drag.(isDragging := false);
    }

    /** touchstart (script.js:200-207): the first touch acts as the mouse. */
    method OnTouchStart(touches: nat, x: real, y: real)
      modifies this`drag
      ensures drag == TouchStart(old(drag), touches, x, y)
    {
      if touches > 0 {
        drag := drag.(isDragging := true, lastX := x, lastY := y);
      }
    }

    /** touchmove (script.js:209-220). */
    method OnTouchMove(touches: nat, x: real, y: real)
      modifies this`drag
      ensures drag == TouchMove(old(drag), touches, x, y)
    {
      if drag.isDragging && touches > 0 {
        var deltaX := x - drag.lastX;
        var deltaY := y - drag.lastY;
        drag := drag.(rotationY := drag.rotationY + deltaX * DragSpeed);
        drag := drag.(rotationX := drag.rotationX + deltaY * DragSpeed);
        drag := drag.(lastX := x, lastY := y);
      }
    }

    /** touchend and touchcancel (script.js:222-228). */
    method OnTouchEnd()
      modifies this`drag
      ensures drag == EndDrag(old(drag))
    {
      drag := drag.(isDragging := false);
    }

    method OnTouchCancel()
      modifies this`drag
      ensures drag == EndDrag(old(drag))
    {
      drag := drag.(isDragging := false);
    }
  }
}
