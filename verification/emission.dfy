/**
 * The emission phase's per-particle rule (script.js:385-428): particle i of n
 * starts to appear once the global emissionProgress reaches its threshold i/n,
 * so the sphere fills in list order.
 */
module Emission {
  import opened Particles
  import opened RealArith

  function Threshold(i: nat, n: nat): (t: real)
    requires i < n
    ensures 0.0 <= t < 1.0
  {
    i as real / n as real
  }

  /** The appearProgress particle i of n receives at global progress ep. */
  function AppearProgress(i: nat, n: nat, ep: real): (a: real)
    requires i < n
    ensures 0.0 <= a <= 1.0
    ensures ep < Threshold(i, n) ==> a == 0.0
    ensures ep >= 1.0 ==> a == 1.0
  {
    var t := Threshold(i, n);
    if ep >= t then
      var q := (ep - t) / (1.0 - t);
      QuotientBounds(ep - t, 1.0 - t);
      if 1.0 < q then 1.0 else q
    else 0.0
  }

  /** One iteration of the emission loop for particle i of n at global progress ep. */
  function EmitParticle(p: Particle, i: nat, n: nat, ep: real): (r: Particle)
    requires i < n
    ensures r == p.(isVisible := r.isVisible, isReady := r.isReady, appearProgress := r.appearProgress)
    ensures r.appearProgress == AppearProgress(i, n, ep)
    ensures ep < Threshold(i, n) ==> !r.isVisible
    ensures r.isVisible <==> r.appearProgress > 0.5
    ensures r.isReady <==> p.isReady || r.appearProgress >= 1.0
  {
    var t := Threshold(i, n);
    if ep >= t then
      var progress := AppearProgress(i, n, ep);
      if progress >= 1.0 then p.(appearProgress := progress, isReady := true, isVisible := true)
      else p.(appearProgress := progress, isVisible := progress > 0.5)
    else p.(isVisible := false, appearProgress := 0.0)
  }

  /** The whole emission loop over the current particle list. */
  function EmitAll(ps: seq<Particle>, ep: real): (r: seq<Particle>)
    ensures |r| == |ps|
    ensures forall i :: 0 <= i < |ps| ==>
              && r[i] == ps[i].(isVisible := r[i].isVisible, isReady := r[i].isReady,
                                appearProgress := r[i].appearProgress)
              && r[i].appearProgress == AppearProgress(i, |ps|, ep)
              && (r[i].isVisible <==> r[i].appearProgress > 0.5)
  {
    seq(|ps|, i requires 0 <= i < |ps| => EmitParticle(ps[i], i, |ps|, ep))
  }

  /** The forEach of script.js:422-426 that closes the emission phase. */
  function Reveal(p: Particle): Particle
  {
    p.(isVisible := true, isReady := true, appearProgress := 1.0)
  }

  function RevealAll(ps: seq<Particle>): (r: seq<Particle>)
    ensures |r| == |ps|
    ensures forall i :: 0 <= i < |ps| ==>
              && r[i] == ps[i].(isVisible := r[i].isVisible, isReady := r[i].isReady,
                                appearProgress := r[i].appearProgress)
              && r[i].isVisible && r[i].isReady && r[i].appearProgress == 1.0
  {
    seq(|ps|, i requires 0 <= i < |ps| => Reveal(ps[i]))
  }

  /** (e - a) / (1 - a) shrinks as the threshold a grows, for a fixed e <= 1. */
  lemma RatioShrinks(a: real, b: real, e: real)
    requires 0.0 <= a < b < 1.0 && b <= e <= 1.0
    ensures (e - b) / (1.0 - b) <= (e - a) / (1.0 - a)
  {
    var u := (e - a) / (1.0 - a);
    var v := (e - b) / (1.0 - b);
    assert u * (1.0 - a) == e - a;
    assert v * (1.0 - b) == e - b;
    assert (e - a) * (1.0 - b) - (e - b) * (1.0 - a) == (b - a) * (1.0 - e);
    assert (b - a) * (1.0 - e) >= 0.0;
    var w := (1.0 - a) * (1.0 - b);
    ProductKeepsOrder(0.0, 1.0 - a, 1.0 - b);
    assert (u - v) * w == (b - a) * (1.0 - e);
    if u < v {
      ProductKeepsOrder(u - v, 0.0, w);
    }
  }

  /** Earlier particles are never behind later ones: appearProgress falls with the index. */
  lemma AppearOrderedByIndex(i: nat, j: nat, n: nat, ep: real)
    requires i < j < n && ep <= 1.0
    ensures AppearProgress(i, n, ep) >= AppearProgress(j, n, ep)
  {
    var ti, tj := Threshold(i, n), Threshold(j, n);
    assert ti * (n as real) == i as real;
    assert tj * (n as real) == j as real;
    FactorOrder(ti, tj, n as real, i as real, j as real);
    if ep >= tj {
      RatioShrinks(ti, tj, ep);
    }
  }

  /** A particle's appearProgress never falls while the global progress grows. */
  lemma AppearMonotoneInProgress(i: nat, n: nat, ep1: real, ep2: real)
    requires i < n && ep1 <= ep2
    ensures AppearProgress(i, n, ep1) <= AppearProgress(i, n, ep2)
  {
    var t := Threshold(i, n);
    if ep1 >= t {
      var d := 1.0 - t;
      var q1, q2 := (ep1 - t) / d, (ep2 - t) / d;
      assert q1 * d == ep1 - t && q2 * d == ep2 - t;
      FactorOrder(q1, q2, d, ep1 - t, ep2 - t);
    }
  }

  /** In an emission frame the list is ordered by appearProgress, first particle furthest along. */
  lemma EmissionOrdered(ps: seq<Particle>, ep: real)
    requires ep <= 1.0
    ensures forall i, j :: 0 <= i < j < |ps| ==>
              EmitAll(ps, ep)[i].appearProgress >= EmitAll(ps, ep)[j].appearProgress
  {
    forall i, j | 0 <= i < j < |ps|
      ensures EmitAll(ps, ep)[i].appearProgress >= EmitAll(ps, ep)[j].appearProgress
    {
      AppearOrderedByIndex(i, j, |ps|, ep);
    }
  }

  /** Once the global progress reaches 1, the loop alone already shows every particle, fully grown and ready. */
  lemma EmissionCompletes(ps: seq<Particle>, ep: real)
    requires ep >= 1.0
    ensures forall i :: 0 <= i < |ps| ==>
              EmitAll(ps, ep)[i] == Reveal(ps[i])
  {
  }

  /**
   * Four particles at global progress 0.5: thresholds 0, 1/4, 2/4 and 3/4 give
   * appearProgress 1/2, 1/3, 0 and 0, and since none is above 1/2, none is visible.
   */
  lemma FourParticlesAtHalf(ps: seq<Particle>)
    requires |ps| == 4
    ensures var r := EmitAll(ps, 0.5);
            r[0].appearProgress == 0.5 && r[1].appearProgress == 1.0 / 3.0
            && r[2].appearProgress == 0.0 && r[3].appearProgress == 0.0
            && forall i :: 0 <= i < 4 ==> !r[i].isVisible
  {
    var r := EmitAll(ps, 0.5);
    assert Threshold(0, 4) == 0.0;
    assert AppearProgress(0, 4, 0.5) == 0.5;
    assert Threshold(1, 4) == 0.25;
    var q := (0.5 - 0.25) / (1.0 - 0.25);
    assert q * 0.75 == 0.25;
    assert q == 1.0 / 3.0;
    assert AppearProgress(1, 4, 0.5) == 1.0 / 3.0;
    assert r[0].appearProgress == 0.5 && r[1].appearProgress == 1.0 / 3.0;
    assert Threshold(2, 4) == 0.5;
    assert r[2].appearProgress == 0.0;
    assert Threshold(3, 4) == 0.75;
    assert r[3].appearProgress == 0.0;
    forall i | 0 <= i < 4
      ensures !r[i].isVisible
    {
      assert r[i].isVisible <==> r[i].appearProgress > 0.5;
      assert i == 0 || i == 1 || i == 2 || i == 3;
    }
  }
}
