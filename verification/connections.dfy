/**
 * generateConnections (script.js:461-518) as a specification: a greedy
 * nearest-neighbour pass over sampled anchors. The source compares square roots
 * of squared distances; square roots keep order, so the model compares the
 * squared distances directly.
 */
module Connections {
  import opened Wrappers
  import opened Geometry
  import opened Particles

  /** Index pairs as the source keys them, `${i}-${j}`. */
  type Pair = (nat, nat)

  const MaxLineDistance: real := 60.0

  /**
   * One edge: the indices of its two particles at generation time, its squared
   * length and the screen positions of both ends at that moment.
   */
  datatype Connection = Connection(i: nat, j: nat, distSq: real,
                                   startX: real, startY: real, endX: real, endY: real)

  /** A particle takes part in connection building only if visible with positive projected size. */
  predicate Eligible(p: Particle)
  {
    p.isVisible && p.screenSize > 0.0
  }

  /** Either orientation of the pair is already recorded. */
  predicate Linked(pairs: set<Pair>, i: nat, j: nat)
  {
    (i, j) in pairs || (j, i) in pairs
  }

  /** Particle j may be joined to anchor i given the pairs recorded so far. */
  predicate IsCandidate(ps: seq<Particle>, pairs: set<Pair>, i: nat, j: nat)
    requires i < |ps| && j < |ps|
  {
    && i != j
    && Eligible(ps[j])
    && DistSq(ps[i].pos, ps[j].pos) < MaxLineDistance * MaxLineDistance
    && !Linked(pairs, i, j)
  }

  /** The inner loop's test (script.js:491-492): j is a candidate strictly closer than the best so far. */
  predicate Improves(ps: seq<Particle>, pairs: set<Pair>, i: nat, j: nat, best: Option<nat>)
    requires i < |ps| && j < |ps| && (best.Some? ==> best.value < |ps|)
  {
    && IsCandidate(ps, pairs, i, j)
    && (best.None? || DistSq(ps[i].pos, ps[j].pos) < DistSq(ps[i].pos, ps[best.value].pos))
  }

  /** The inner loop from index j on, with the closest candidate found so far. */
  function ScanFrom(ps: seq<Particle>, pairs: set<Pair>, i: nat, j: nat, best: Option<nat>): (r: Option<nat>)
    requires i < |ps| && j <= |ps| && (best.Some? ==> best.value < |ps|)
    ensures r.Some? ==> r.value < |ps|
    ensures r.Some? && r != best ==> IsCandidate(ps, pairs, i, r.value)
    decreases |ps| - j
  {
    if j == |ps| then best
    else ScanFrom(ps, pairs, i, j + 1, if Improves(ps, pairs, i, j, best) then Some(j) else best)
  }

  /** The partner the inner loop picks for anchor i, if any. */
  function Nearest(ps: seq<Particle>, pairs: set<Pair>, i: nat): (r: Option<nat>)
    requires i < |ps|
    ensures r.Some? ==> r.value < |ps| && IsCandidate(ps, pairs, i, r.value)
  {
    ScanFrom(ps, pairs, i, 0, None)
  }

  /**
   * `best` is the closest candidate among indices below j, the lowest such
   * index on a tie, and None exactly when there is no candidate below j.
   */
  ghost predicate ClosestBelow(ps: seq<Particle>, pairs: set<Pair>, i: nat, j: nat, best: Option<nat>)
    requires i < |ps| && j <= |ps|
  {
    && (best.None? <==> forall k :: 0 <= k < j ==> !IsCandidate(ps, pairs, i, k))
    && (best.Some? ==>
          && best.value < j
          && IsCandidate(ps, pairs, i, best.value)
          && (forall k :: 0 <= k < j && IsCandidate(ps, pairs, i, k) ==>
                DistSq(ps[i].pos, ps[best.value].pos) <= DistSq(ps[i].pos, ps[k].pos))
          && (forall k :: 0 <= k < best.value && IsCandidate(ps, pairs, i, k) ==>
                DistSq(ps[i].pos, ps[best.value].pos) < DistSq(ps[i].pos, ps[k].pos)))
  }

  lemma {:induction false} ScanFromClosest(ps: seq<Particle>, pairs: set<Pair>, i: nat, j: nat, best: Option<nat>)
    requires i < |ps| && j <= |ps| && (best.Some? ==> best.value < |ps|)
    requires ClosestBelow(ps, pairs, i, j, best)
    ensures ClosestBelow(ps, pairs, i, |ps|, ScanFrom(ps, pairs, i, j, best))
    decreases |ps| - j
  {
    if j < |ps| {
      var next := if Improves(ps, pairs, i, j, best) then Some(j) else best;
      assert ClosestBelow(ps, pairs, i, j + 1, next);
      ScanFromClosest(ps, pairs, i, j + 1, next);
    }
  }

  /**
   * The inner loop finds the nearest candidate of anchor i (strict `<` keeps the
   * lowest index among equally near ones) and finds none only when there is none.
   */
  lemma NearestIsClosest(ps: seq<Particle>, pairs: set<Pair>, i: nat)
    requires i < |ps|
    ensures ClosestBelow(ps, pairs, i, |ps|, Nearest(ps, pairs, i))
  {
    ScanFromClosest(ps, pairs, i, 0, None);
  }

  /** floor(n / lineCount), the anchor stride of script.js:466. */
  function Stride(n: nat, lineCount: nat): nat
    requires lineCount > 0
  {
    n / lineCount
  }

  /** The outer loop terminates: it never runs, or its stride is at least 1. */
  predicate StrideOk(n: nat, lineCount: nat)
  {
    lineCount > 0 && (n == 0 || Stride(n, lineCount) >= 1)
  }

  function MakeConnection(ps: seq<Particle>, i: nat, j: nat): Connection
    requires i < |ps| && j < |ps|
  {
    Connection(i, j, DistSq(ps[i].pos, ps[j].pos),
               ps[i].screenX, ps[i].screenY, ps[j].screenX, ps[j].screenY)
  }

  /** The outer loop from anchor i on, with the edges and pairs collected so far. */
  function GreedyFrom(ps: seq<Particle>, stride: nat, i: nat, conns: seq<Connection>, pairs: set<Pair>)
    : (r: (seq<Connection>, set<Pair>))
    requires stride >= 1
    ensures |conns| <= |r.0|
    ensures forall k :: 0 <= k < |conns| ==> r.0[k] == conns[k]
    decreases |ps| - i
  {
    if i >= |ps| then (conns, pairs)
    else if !Eligible(ps[i]) then GreedyFrom(ps, stride, i + stride, conns, pairs)
    else match Nearest(ps, pairs, i)
      case None => GreedyFrom(ps, stride, i + stride, conns, pairs)
      case Some(j) =>
        GreedyFrom(ps, stride, i + stride, conns + [MakeConnection(ps, i, j)], pairs + {(i, j)})
  }

  /** The edges and the pair set generateConnections leaves behind. */
  function GreedyEdges(ps: seq<Particle>, lineCount: nat): (r: (seq<Connection>, set<Pair>))
    requires StrideOk(|ps|, lineCount)
    ensures |ps| == 0 ==> r == ([], {})
    ensures r.1 == PairsOf(r.0)
  {
    if |ps| == 0 then ([], {})
    else
      assert PairsOf([]) == {};
      GreedyFromKeepsInv(ps, Stride(|ps|, lineCount), 0, [], {});
      GreedyFrom(ps, Stride(|ps|, lineCount), 0, [], {})
  }

  function PairsOf(conns: seq<Connection>): set<Pair>
  {
    set k | 0 <= k < |conns| :: (conns[k].i, conns[k].j)
  }

  predicate SamePair(a: Connection, b: Connection)
  {
    (a.i == b.i && a.j == b.j) || (a.i == b.j && a.j == b.i)
  }

  ghost predicate NoDuplicatePairs(conns: seq<Connection>)
  {
    forall k, l :: 0 <= k < l < |conns| ==> !SamePair(conns[k], conns[l])
  }

  /** An edge joins two distinct eligible particles closer than MaxLineDistance. */
  ghost predicate ValidEdge(ps: seq<Particle>, c: Connection)
  {
    && c.i < |ps| && c.j < |ps| && c.i != c.j
    && Eligible(ps[c.i]) && Eligible(ps[c.j])
    && c == MakeConnection(ps, c.i, c.j)
    && c.distSq < MaxLineDistance * MaxLineDistance
  }

  /** Edge k is the anchor's nearest candidate given the pairs of the edges before it. */
  ghost predicate ChosenNearest(ps: seq<Particle>, conns: seq<Connection>, k: nat)
    requires k < |conns| && conns[k].i < |ps|
  {
    Nearest(ps, PairsOf(conns[..k]), conns[k].i) == Some(conns[k].j)
  }

  /** i is one of the anchors 0, stride, 2 * stride, ... that the outer loop visits. */
  predicate Sampled(i: nat, stride: nat)
    requires stride >= 1
    decreases i
  {
    i == 0 || (i >= stride && Sampled(i - stride, stride))
  }

  /** What holds of the collected edges when the outer loop reaches anchor i. */
  ghost predicate GreedyInv(ps: seq<Particle>, stride: nat, i: nat, conns: seq<Connection>, pairs: set<Pair>)
    requires stride >= 1
  {
    && pairs == PairsOf(conns)
    && Sampled(i, stride)
    && |conns| * stride <= i
    && (forall k :: 0 <= k < |conns| ==>
          && ValidEdge(ps, conns[k])
          && conns[k].i < i
          && Sampled(conns[k].i, stride)
          && ChosenNearest(ps, conns, k))
    && (forall k, l :: 0 <= k < l < |conns| ==> conns[k].i < conns[l].i)
    && NoDuplicatePairs(conns)
    && AnchorsServed(ps, stride, i, conns)
  }

  /** The pairs of the edges whose anchor lies below a. */
  function PairsBefore(conns: seq<Connection>, a: nat): set<Pair>
  {
    set k | 0 <= k < |conns| && conns[k].i < a :: (conns[k].i, conns[k].j)
  }

  /**
   * Completeness: every sampled eligible anchor below i that had a candidate,
   * given the edges built before it, is the anchor of an edge.
   */
  ghost predicate AnchorsServed(ps: seq<Particle>, stride: nat, i: nat, conns: seq<Connection>)
    requires stride >= 1
  {
    forall a ::
      (0 <= a < i && a < |ps| && Sampled(a, stride) && Eligible(ps[a])
       && Nearest(ps, PairsBefore(conns, a), a).Some?) ==>
        exists k :: 0 <= k < |conns| && conns[k].i == a
  }

  /** No anchor lies strictly between two consecutive sampled indices. */
  lemma {:induction false} SampledGap(i: nat, a: nat, stride: nat)
    requires stride >= 1 && Sampled(i, stride) && i < a < i + stride
    ensures !Sampled(a, stride)
    decreases i
  {
    if i > 0 && a >= stride {
      SampledGap(i - stride, a - stride, stride);
    }
  }

  /** Once every anchor is below a, the edges before a are all of them. */
  lemma PairsBeforeAll(conns: seq<Connection>, a: nat)
    requires forall k :: 0 <= k < |conns| ==> conns[k].i < a
    ensures PairsBefore(conns, a) == PairsOf(conns)
  {
  }

  /** An edge anchored at or above a does not change the edges before a. */
  lemma PairsBeforeAppend(conns: seq<Connection>, c: Connection, a: nat)
    requires c.i >= a
    ensures PairsBefore(conns + [c], a) == PairsBefore(conns, a)
  {
    var cs := conns + [c];
    assert forall k :: 0 <= k < |conns| ==> cs[k] == conns[k];
  }

  /** The value of the outer loop's index when the loop stops. */
  function LastAnchor(n: nat, stride: nat, i: nat): (e: nat)
    requires stride >= 1
    ensures e >= n && e >= i
    ensures i < n + stride ==> e < n + stride
    decreases n - i
  {
    if i >= n then i else LastAnchor(n, stride, i + stride)
  }

  lemma PairsOfAppend(conns: seq<Connection>, c: Connection)
    ensures PairsOf(conns + [c]) == PairsOf(conns) + {(c.i, c.j)}
  {
    var cs := conns + [c];
    assert forall k :: 0 <= k < |conns| ==> cs[k] == conns[k];
    assert cs[|conns|] == c;
  }

  /** An anchor that is ineligible or has no candidate adds no edge and keeps the invariant. */
  lemma SkipKeepsInv(ps: seq<Particle>, stride: nat, i: nat, conns: seq<Connection>, pairs: set<Pair>)
    requires stride >= 1 && GreedyInv(ps, stride, i, conns, pairs)
    requires i < |ps| && (!Eligible(ps[i]) || Nearest(ps, pairs, i).None?)
    ensures GreedyInv(ps, stride, i + stride, conns, pairs)
  {
    PairsBeforeAll(conns, i);
    forall a | i < a < i + stride
      ensures !Sampled(a, stride)
    {
      SampledGap(i, a, stride);
    }
  }

  /** The edge an anchor adds joins it to a valid partner it was not yet linked with. */
  lemma NewEdgeValid(ps: seq<Particle>, pairs: set<Pair>, i: nat, j: nat)
    requires i < |ps| && Eligible(ps[i]) && Nearest(ps, pairs, i) == Some(j)
    ensures ValidEdge(ps, MakeConnection(ps, i, j))
    ensures !Linked(pairs, i, j)
  {
    NearestIsClosest(ps, pairs, i);
  }

  lemma AppendKeepsChoices(ps: seq<Particle>, conns: seq<Connection>, c: Connection)
    requires forall k :: 0 <= k < |conns| ==> conns[k].i < |ps| && ChosenNearest(ps, conns, k)
    requires c.i < |ps| && Nearest(ps, PairsOf(conns), c.i) == Some(c.j)
    ensures forall k :: 0 <= k < |conns| + 1 ==> ChosenNearest(ps, conns + [c], k)
  {
    var cs := conns + [c];
    assert cs[..|conns|] == conns;
    forall k | 0 <= k < |conns|
      ensures ChosenNearest(ps, cs, k)
    {
      assert cs[..k] == conns[..k];
      assert cs[k] == conns[k];
    }
  }

  lemma AppendKeepsDistinct(conns: seq<Connection>, c: Connection)
    requires NoDuplicatePairs(conns)
    requires !Linked(PairsOf(conns), c.i, c.j)
    ensures NoDuplicatePairs(conns + [c])
  {
    var cs := conns + [c];
    forall k, l | 0 <= k < l < |cs|
      ensures !SamePair(cs[k], cs[l])
    {
      if l == |conns| {
        assert (conns[k].i, conns[k].j) in PairsOf(conns);
      } else {
        assert cs[k] == conns[k] && cs[l] == conns[l];
      }
    }
  }

  /** An anchor that adds the edge to its nearest candidate keeps the invariant. */
  lemma AddKeepsInv(ps: seq<Particle>, stride: nat, i: nat, conns: seq<Connection>, pairs: set<Pair>, j: nat)
    requires stride >= 1 && GreedyInv(ps, stride, i, conns, pairs)
    requires i < |ps| && Eligible(ps[i]) && Nearest(ps, pairs, i) == Some(j)
    ensures GreedyInv(ps, stride, i + stride, conns + [MakeConnection(ps, i, j)], pairs + {(i, j)})
  {
    var c := MakeConnection(ps, i, j);
    var cs := conns + [c];
    NewEdgeValid(ps, pairs, i, j);
    PairsOfAppend(conns, c);
    AppendKeepsChoices(ps, conns, c);
    AppendKeepsDistinct(conns, c);
    assert |cs| * stride == |conns| * stride + stride;
    assert forall k :: 0 <= k < |conns| ==> cs[k] == conns[k];
    AddKeepsServed(ps, stride, i, conns, c);
  }

  /** The anchor that adds an edge is served, and the anchors before it stay served. */
  lemma AddKeepsServed(ps: seq<Particle>, stride: nat, i: nat, conns: seq<Connection>, c: Connection)
    requires stride >= 1 && Sampled(i, stride) && AnchorsServed(ps, stride, i, conns) && c.i == i
    ensures AnchorsServed(ps, stride, i + stride, conns + [c])
  {
    var cs := conns + [c];
    forall a | 0 <= a < i + stride && a < |ps| && Sampled(a, stride) && Eligible(ps[a])
                && Nearest(ps, PairsBefore(cs, a), a).Some?
      ensures exists k :: 0 <= k < |cs| && cs[k].i == a
    {
      if a == i {
        assert cs[|conns|].i == a;
      } else if a < i {
        PairsBeforeAppend(conns, c, a);
        var k :| 0 <= k < |conns| && conns[k].i == a;
        assert cs[k].i == a;
      } else {
        SampledGap(i, a, stride);
      }
    }
  }

  lemma {:induction false} GreedyFromKeepsInv(ps: seq<Particle>, stride: nat, i: nat,
                                              conns: seq<Connection>, pairs: set<Pair>)
    requires stride >= 1
    requires GreedyInv(ps, stride, i, conns, pairs)
    ensures var (cs, prs) := GreedyFrom(ps, stride, i, conns, pairs);
            GreedyInv(ps, stride, LastAnchor(|ps|, stride, i), cs, prs)
    decreases |ps| - i
  {
    if i >= |ps| {
    } else if !Eligible(ps[i]) || Nearest(ps, pairs, i).None? {
      assert GreedyFrom(ps, stride, i, conns, pairs) == GreedyFrom(ps, stride, i + stride, conns, pairs);
      assert LastAnchor(|ps|, stride, i) == LastAnchor(|ps|, stride, i + stride);
      SkipKeepsInv(ps, stride, i, conns, pairs);
      GreedyFromKeepsInv(ps, stride, i + stride, conns, pairs);
    } else {
      var j := Nearest(ps, pairs, i).value;
      var conns', pairs' := conns + [MakeConnection(ps, i, j)], pairs + {(i, j)};
      assert GreedyFrom(ps, stride, i, conns, pairs) == GreedyFrom(ps, stride, i + stride, conns', pairs');
      assert LastAnchor(|ps|, stride, i) == LastAnchor(|ps|, stride, i + stride);
      AddKeepsInv(ps, stride, i, conns, pairs, j);
      GreedyFromKeepsInv(ps, stride, i + stride, conns', pairs');
    }
  }

  /**
   * What generateConnections builds: the pair set records exactly the edges;
   * no unordered pair occurs twice; every edge joins two distinct eligible
   * particles closer than MaxLineDistance; anchors are sampled indices
   * 0, s, 2s, ... in increasing order, so there is at most one edge per anchor
   * and at most ceil(n / s) edges; and each edge goes to the anchor's nearest
   * candidate given the edges built before it. Conversely, no sampled anchor
   * is passed over: every eligible one that had a candidate, given the edges
   * built before it, is the anchor of an edge.
   */
  lemma GreedyEdgesSound(ps: seq<Particle>, lineCount: nat)
    requires StrideOk(|ps|, lineCount)
    ensures var (conns, pairs) := GreedyEdges(ps, lineCount);
            && pairs == PairsOf(conns)
            && NoDuplicatePairs(conns)
            && (forall k :: 0 <= k < |conns| ==> ValidEdge(ps, conns[k]) && ChosenNearest(ps, conns, k))
            && (forall k, l :: 0 <= k < l < |conns| ==> conns[k].i < conns[l].i)
            && (|ps| > 0 ==>
                  var s := Stride(|ps|, lineCount);
                  && (forall k :: 0 <= k < |conns| ==> Sampled(conns[k].i, s))
                  && |conns| * s < |ps| + s
                  && (forall a ::
                        (0 <= a < |ps| && Sampled(a, s) && Eligible(ps[a])
                         && Nearest(ps, PairsBefore(conns, a), a).Some?) ==>
                          exists k :: 0 <= k < |conns| && conns[k].i == a))
  {
    if |ps| > 0 {
      var s := Stride(|ps|, lineCount);
      assert PairsOf([]) == {};
      GreedyFromKeepsInv(ps, s, 0, [], {});
    }
  }

  /**
   * The partner of every edge is at least as near to its anchor as every other
   * candidate at that point, and strictly nearer than every candidate with a
   * lower index.
   */
  lemma EdgesAreNearest(ps: seq<Particle>, lineCount: nat, k: nat)
    requires StrideOk(|ps|, lineCount)
    requires k < |GreedyEdges(ps, lineCount).0|
    ensures var conns := GreedyEdges(ps, lineCount).0;
            var (i, j) := (conns[k].i, conns[k].j);
            var prior := PairsOf(conns[..k]);
            && i < |ps| && j < |ps| && IsCandidate(ps, prior, i, j)
            && (forall m :: 0 <= m < |ps| && IsCandidate(ps, prior, i, m) ==>
                  DistSq(ps[i].pos, ps[j].pos) <= DistSq(ps[i].pos, ps[m].pos))
            && (forall m :: 0 <= m < j && IsCandidate(ps, prior, i, m) ==>
                  DistSq(ps[i].pos, ps[j].pos) < DistSq(ps[i].pos, ps[m].pos))
  {
    GreedyEdgesSound(ps, lineCount);
    var conns := GreedyEdges(ps, lineCount).0;
    NearestIsClosest(ps, PairsOf(conns[..k]), conns[k].i);
  }
}
