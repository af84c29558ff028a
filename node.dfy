/** The node `find_max_curvature_node`: for every received path it clears the
    marker topic, flags the points whose curvature exceeds `kappa_max`, and
    publishes one marker batch for the flagged points. */
module Node {
  import opened Float64
  import opened Msgs
  import opened Curvature
  import opened Config
  import opened Composer

  /** One entry `(p[i], kappa)` of `bad_kappas`. */
  datatype BadKappa = BadKappa(point: PoseStamped, kappa: Float)

  // ---------------------------------------------------------------------------
  // Flagging (the loop of `path_cb`)
  // ---------------------------------------------------------------------------

  /** The exclusive upper bound of `range(1, len(p) - 2)`. The examined
      indices are 1 .. n-3: index n-2, the last one with a successor, is not
      examined. */
  function ScanEnd(n: nat): int
  {
    n - 2
  }

  /** The curvature the loop computes at index i. */
  function KappaAt(ops: FloatOps, p: seq<PoseStamped>, i: int): Float
    requires 1 <= i < |p| - 1
  {
    FindKappa(ops, p[i - 1], p[i], p[i + 1])
  }

  /** The test `kappa > kappa_max` at index i. */
  predicate IsBad(ops: FloatOps, kappaMax: real, p: seq<PoseStamped>, i: int)
    requires 1 <= i < |p| - 1
  {
    Gt(KappaAt(ops, p, i), kappaMax)
  }

  /** The indices the loop appends, in loop order, among those below `hi`. */
  function FlaggedBelow(ops: FloatOps, kappaMax: real, p: seq<PoseStamped>, hi: int): (f: seq<int>)
    requires hi <= 1 || hi < |p|
    ensures forall j :: 0 <= j < |f| ==> 1 <= f[j] < hi
    decreases hi
  {
    if hi <= 1 then []
    else FlaggedBelow(ops, kappaMax, p, hi - 1) + (if IsBad(ops, kappaMax, p, hi - 1) then [hi - 1] else [])
  }

  /** `bad_kappas` once the loop has examined every index below `hi`. */
  function BadKappasBelow(ops: FloatOps, kappaMax: real, p: seq<PoseStamped>, hi: int): seq<BadKappa>
    requires hi <= 1 || hi < |p|
  {
    var f := FlaggedBelow(ops, kappaMax, p, hi);
    seq(|f|, j requires 0 <= j < |f| => BadKappa(p[f[j]], KappaAt(ops, p, f[j])))
  }

  /** The indices flagged in the whole path. */
  function FlaggedIndices(ops: FloatOps, kappaMax: real, p: seq<PoseStamped>): seq<int>
  {
    FlaggedBelow(ops, kappaMax, p, ScanEnd(|p|))
  }

  /** `bad_kappas` after the loop. */
  function BadKappas(ops: FloatOps, kappaMax: real, p: seq<PoseStamped>): seq<BadKappa>
  {
    BadKappasBelow(ops, kappaMax, p, ScanEnd(|p|))
  }

  lemma BadKappasBelowStep(ops: FloatOps, kappaMax: real, p: seq<PoseStamped>, i: int)
    requires 1 <= i < |p| - 1
    ensures BadKappasBelow(ops, kappaMax, p, i + 1) ==
            BadKappasBelow(ops, kappaMax, p, i) +
            (if IsBad(ops, kappaMax, p, i) then [BadKappa(p[i], KappaAt(ops, p, i))] else [])
  {
    var f, g := FlaggedBelow(ops, kappaMax, p, i), FlaggedBelow(ops, kappaMax, p, i + 1);
    assert g == f + (if IsBad(ops, kappaMax, p, i) then [i] else []);
  }

  /** The loop of `path_cb` over `range(1, len(p) - 2)` that collects the
      points whose curvature is above `kappa_max`. */
  method ScanBadKappas(ops: FloatOps, kappaMax: real, p: seq<PoseStamped>) returns (badKappas: seq<BadKappa>)
    ensures badKappas == BadKappas(ops, kappaMax, p)
  {
    badKappas := [];
    var i := 1;
    while i < |p| - 2
      invariant 1 <= i && (i == 1 || i <= |p| - 2)
      invariant badKappas == BadKappasBelow(ops, kappaMax, p, i)
    {
      var kappa := FindKappa(ops, p[i - 1], p[i], p[i + 1]);
      BadKappasBelowStep(ops, kappaMax, p, i);
      if Gt(kappa, kappaMax) {
        badKappas := badKappas + [BadKappa(p[i], kappa)];
      }
      i := i + 1;
    }
    assert FlaggedBelow(ops, kappaMax, p, i) == FlaggedIndices(ops, kappaMax, p);
  }

  lemma {:induction false} FlaggedBelowMembers(ops: FloatOps, kappaMax: real, p: seq<PoseStamped>, hi: int)
    requires hi <= 1 || hi < |p|
    ensures forall i :: i in FlaggedBelow(ops, kappaMax, p, hi) <==> 1 <= i < hi && IsBad(ops, kappaMax, p, i)
    decreases hi
  {
    if hi > 1 {
      FlaggedBelowMembers(ops, kappaMax, p, hi - 1);
    }
  }

  ghost predicate StrictlyIncreasing(f: seq<int>)
  {
    forall j, k :: 0 <= j < k < |f| ==> f[j] < f[k]
  }

  lemma {:induction false} FlaggedBelowIncreasing(ops: FloatOps, kappaMax: real, p: seq<PoseStamped>, hi: int)
    requires hi <= 1 || hi < |p|
    ensures StrictlyIncreasing(FlaggedBelow(ops, kappaMax, p, hi))
    decreases hi
  {
    if hi > 1 {
      FlaggedBelowIncreasing(ops, kappaMax, p, hi - 1);
      var g := FlaggedBelow(ops, kappaMax, p, hi - 1);
      var f := FlaggedBelow(ops, kappaMax, p, hi);
      assert f == g + (if IsBad(ops, kappaMax, p, hi - 1) then [hi - 1] else []);
      forall j, k | 0 <= j < k < |f|
        ensures f[j] < f[k]
      {
        assert f[j] == g[j];
        if k < |g| {
          assert f[k] == g[k];
        } else {
          assert f[k] == hi - 1;
          assert g[j] < hi - 1;
        }
      }
    }
  }

  /** What the loop finds: an index is flagged exactly when it lies in
      1 .. |p|-3 and its curvature is strictly above `kappa_max`; flagged
      indices come in increasing path order; and each entry of `bad_kappas`
      pairs the pose at its index with that index's own curvature. */
  lemma BadKappasSpec(ops: FloatOps, kappaMax: real, p: seq<PoseStamped>)
    ensures var f := FlaggedIndices(ops, kappaMax, p);
            forall i :: i in f <==> 1 <= i <= |p| - 3 && IsBad(ops, kappaMax, p, i)
    ensures StrictlyIncreasing(FlaggedIndices(ops, kappaMax, p))
    ensures var f, b := FlaggedIndices(ops, kappaMax, p), BadKappas(ops, kappaMax, p);
            |b| == |f| &&
            forall j :: 0 <= j < |b| ==> 1 <= f[j] <= |p| - 3 && b[j] == BadKappa(p[f[j]], KappaAt(ops, p, f[j]))
  {
    FlaggedBelowMembers(ops, kappaMax, p, ScanEnd(|p|));
    FlaggedBelowIncreasing(ops, kappaMax, p, ScanEnd(|p|));
  }

  /** The first, the last and the second-to-last pose are never flagged; the
      second-to-last not even when its curvature is above the threshold,
      because the loop stops one index short of it. */
  lemma BoundaryNeverFlagged(ops: FloatOps, kappaMax: real, p: seq<PoseStamped>)
    ensures 0 !in FlaggedIndices(ops, kappaMax, p)
    ensures |p| - 1 !in FlaggedIndices(ops, kappaMax, p)
    ensures |p| - 2 !in FlaggedIndices(ops, kappaMax, p)
  {
    BadKappasSpec(ops, kappaMax, p);
  }

  /** A path with fewer than four poses has no examined index, so nothing is
      flagged. */
  lemma ShortPathNothingFlagged(ops: FloatOps, kappaMax: real, p: seq<PoseStamped>)
    requires |p| < 4
    ensures FlaggedIndices(ops, kappaMax, p) == []
    ensures BadKappas(ops, kappaMax, p) == []
  {
  }

  /** Every flagged curvature is strictly above the threshold, so it is neither
      NaN nor equal to `kappa_max`. */
  lemma FlaggedAboveThreshold(ops: FloatOps, kappaMax: real, p: seq<PoseStamped>)
    ensures forall b :: b in BadKappas(ops, kappaMax, p) ==>
              Gt(b.kappa, kappaMax) && b.kappa != NaN && b.kappa != Fin(kappaMax)
  {
    BadKappasSpec(ops, kappaMax, p);
    var f, bk := FlaggedIndices(ops, kappaMax, p), BadKappas(ops, kappaMax, p);
    forall b | b in bk
      ensures Gt(b.kappa, kappaMax)
    {
      var j :| 0 <= j < |bk| && bk[j] == b;
      assert f[j] in f;
    }
  }

  /** A point that coincides with its predecessor or its successor has a NaN
      curvature and is never flagged, whatever `kappa_max` is. */
  lemma DegenerateNeverFlagged(ops: FloatOps, kappaMax: real, p: seq<PoseStamped>, i: int)
    requires DotVanishes(ops) && NormDefinite(ops)
    requires 1 <= i < |p| - 1
    requires XY(p[i - 1]) == XY(p[i]) || XY(p[i]) == XY(p[i + 1])
    ensures i !in FlaggedIndices(ops, kappaMax, p)
  {
    DegenerateIsNaN(ops, p[i - 1], p[i], p[i + 1]);
    BadKappasSpec(ops, kappaMax, p);
  }

  /** The step from `a` to `b` moves forward along direction `d`. */
  ghost predicate ForwardStep(a: PoseStamped, b: PoseStamped, d: Vec2)
  {
    exists u :: u > 0.0 && Sub(XY(b), XY(a)) == Scale(u, d)
  }

  /** A path whose every step moves forward along one line, direction `d`, has
      curvature 0 at every interior point, so with a non-negative threshold
      nothing is flagged. */
  lemma CollinearPathNothingFlagged(ops: FloatOps, kappaMax: real, p: seq<PoseStamped>, d: Vec2)
    requires NormDefinite(ops) && NormEuclidean(ops) && IsArccos(ops)
    requires kappaMax >= 0.0 && d != Zero2
    requires forall i :: 1 <= i < |p| ==> ForwardStep(p[i - 1], p[i], d)
    ensures FlaggedIndices(ops, kappaMax, p) == []
  {
    BadKappasSpec(ops, kappaMax, p);
    var f := FlaggedIndices(ops, kappaMax, p);
    if f != [] {
      var i := f[0];
      assert i in f;
      assert ForwardStep(p[i - 1], p[i], d) && ForwardStep(p[i], p[i + 1], d);
      var u :| u > 0.0 && Sub(XY(p[i]), XY(p[i - 1])) == Scale(u, d);
      var w :| w > 0.0 && Sub(XY(p[i + 1]), XY(p[i])) == Scale(w, d);
      StraightNotBad(ops, kappaMax, p, i, d, u, w);
    }
  }

  lemma StraightNotBad(ops: FloatOps, kappaMax: real, p: seq<PoseStamped>, i: int, d: Vec2, u: real, w: real)
    requires NormDefinite(ops) && NormEuclidean(ops) && IsArccos(ops)
    requires kappaMax >= 0.0 && d != Zero2 && u > 0.0 && w > 0.0
    requires 1 <= i < |p| - 1
    requires Sub(XY(p[i]), XY(p[i - 1])) == Scale(u, d) && Sub(XY(p[i + 1]), XY(p[i])) == Scale(w, d)
    ensures !IsBad(ops, kappaMax, p, i)
  {
    StraightIsZero(ops, p[i - 1], p[i], p[i + 1], d, u, w);
  }

  // ---------------------------------------------------------------------------
  // Batch construction (`publish_marker`)
  // ---------------------------------------------------------------------------

  /** The markers for the flagged point with marker id `id`: its sphere, then
      its label when labels are enabled. */
  function MarkersFor(cfg: Config, b: BadKappa, id: int): seq<Marker>
  {
    [MakeSphere(cfg, b.point, id)] + (if cfg.showLabels then [MakeLabel(cfg, b.point, b.kappa, id)] else [])
  }

  /** The marker array `publish_marker` builds for `bad_kappas`. */
  function MarkerBatch(cfg: Config, bad: seq<BadKappa>): seq<Marker>
    decreases |bad|
  {
    if bad == [] then []
    else MarkerBatch(cfg, bad[..|bad| - 1]) + MarkersFor(cfg, bad[|bad| - 1], |bad| - 1)
  }

  /** The loop of `publish_marker` that numbers the flagged points from 0 and appends
      their markers. */
  method BuildBatch(cfg: Config, badKappas: seq<BadKappa>) returns (ma: MarkerArray)
    ensures ma == MarkerBatch(cfg, badKappas)
  {
    var markerId := 0;
    ma := [];
    for k := 0 to |badKappas|
      invariant markerId == k
      invariant ma == MarkerBatch(cfg, badKappas[..k])
    {
      var b := badKappas[k];
      assert badKappas[..k + 1][..k] == badKappas[..k];
      ma := ma + [MakeSphere(cfg, b.point, markerId)];
      if cfg.showLabels {
        ma := ma + [MakeLabel(cfg, b.point, b.kappa, markerId)];
      }
      markerId := markerId + 1;
    }
    assert badKappas[..|badKappas|] == badKappas;
  }

  /** The layout of a batch of N flagged points: N markers without labels,
      where marker k is the sphere with id k; 2N with labels, where marker 2k
      is the sphere with id k and marker 2k+1 the label with the same id k. */
  lemma {:induction false} BatchLayout(cfg: Config, bad: seq<BadKappa>)
    ensures var mb := MarkerBatch(cfg, bad);
            |mb| == (if cfg.showLabels then 2 * |bad| else |bad|)
    ensures var mb := MarkerBatch(cfg, bad);
            !cfg.showLabels ==>
            forall k :: 0 <= k < |bad| ==> mb[k] == MakeSphere(cfg, bad[k].point, k)
    ensures var mb := MarkerBatch(cfg, bad);
            cfg.showLabels ==>
            forall a :: 0 <= a < |mb| ==>
              mb[a] == if a % 2 == 0 then MakeSphere(cfg, bad[a / 2].point, a / 2)
                       else MakeLabel(cfg, bad[a / 2].point, bad[a / 2].kappa, a / 2)
    decreases |bad|
  {
    if bad != [] {
      var n := |bad| - 1;
      var front := bad[..n];
      BatchLayout(cfg, front);
      assert forall k :: 0 <= k < n ==> front[k] == bad[k];
      var prev, last := MarkerBatch(cfg, front), MarkersFor(cfg, bad[n], n);
      assert MarkerBatch(cfg, bad) == prev + last;
      if cfg.showLabels {
        forall a | 0 <= a < |prev| + |last|
          ensures (prev + last)[a] == if a % 2 == 0 then MakeSphere(cfg, bad[a / 2].point, a / 2)
                                      else MakeLabel(cfg, bad[a / 2].point, bad[a / 2].kappa, a / 2)
        {
          if a < |prev| {
            assert (prev + last)[a] == prev[a];
          } else {
            assert a / 2 == n;
          }
        }
      }
    }
  }

  /** Each marker of a batch: namespace "sphere" at the even positions (every
      position without labels) and "label" at the odd ones, id equal to the
      position of its point in `bad_kappas` (0 .. N-1, not the pose's index
      in the path), action ADD. */
  lemma MarkerOfBatch(cfg: Config, bad: seq<BadKappa>, a: int)
    requires 0 <= a < |MarkerBatch(cfg, bad)|
    ensures var m := MarkerBatch(cfg, bad)[a];
            var k := if cfg.showLabels then a / 2 else a;
            0 <= k < |bad| && m.id == k && m.action == Add &&
            m.ns == (if cfg.showLabels && a % 2 == 1 then LabelNs else SphereNs)
  {
    BatchLayout(cfg, bad);
  }

  /** Some marker of `mb` has namespace `ns` and id `id`. */
  ghost predicate HasMarker(mb: seq<Marker>, ns: string, id: int)
  {
    exists a :: 0 <= a < |mb| && mb[a].ns == ns && mb[a].id == id
  }

  /** Within one batch, (ns, id) identifies a marker: no two markers share
      both. For every position k in `bad_kappas` there is a sphere with id k and,
      with labels enabled, a label with id k; there are no others. */
  lemma BatchIdentities(cfg: Config, bad: seq<BadKappa>)
    ensures var mb := MarkerBatch(cfg, bad);
            forall a, b :: 0 <= a < b < |mb| ==> mb[a].ns != mb[b].ns || mb[a].id != mb[b].id
    ensures var mb := MarkerBatch(cfg, bad);
            forall a :: 0 <= a < |mb| ==>
              0 <= mb[a].id < |bad| && (mb[a].ns == SphereNs || (cfg.showLabels && mb[a].ns == LabelNs))
    ensures forall k :: 0 <= k < |bad| ==>
              HasMarker(MarkerBatch(cfg, bad), SphereNs, k) &&
              (cfg.showLabels ==> HasMarker(MarkerBatch(cfg, bad), LabelNs, k))
  {
    var mb := MarkerBatch(cfg, bad);
    BatchLayout(cfg, bad);
    forall a, b | 0 <= a < b < |mb|
      ensures mb[a].ns != mb[b].ns || mb[a].id != mb[b].id
    {
      MarkerOfBatch(cfg, bad, a);
      MarkerOfBatch(cfg, bad, b);
    }
    forall a | 0 <= a < |mb|
      ensures 0 <= mb[a].id < |bad| && (mb[a].ns == SphereNs || (cfg.showLabels && mb[a].ns == LabelNs))
    {
      MarkerOfBatch(cfg, bad, a);
    }
    forall k | 0 <= k < |bad|
      ensures HasMarker(mb, SphereNs, k)
      ensures cfg.showLabels ==> HasMarker(mb, LabelNs, k)
    {
      if cfg.showLabels {
        assert (2 * k) / 2 == k && (2 * k + 1) / 2 == k && (2 * k + 1) % 2 == 1;
        assert mb[2 * k].ns == SphereNs && mb[2 * k].id == k;
        assert mb[2 * k + 1].ns == LabelNs && mb[2 * k + 1].id == k;
      } else {
        assert mb[k].ns == SphereNs && mb[k].id == k;
      }
    }
  }

  // ---------------------------------------------------------------------------
  // One callback (`path_cb`)
  // ---------------------------------------------------------------------------

  /** The array holding the single DELETEALL marker published first. */
  function ClearArray(cfg: Config): MarkerArray
  {
    [DefaultMarker().(header := Header(cfg.frameId), action := DeleteAll)]
  }

  const AllOk := "All points in the path were OK!"

  /** The marker arrays one call of `path_cb` publishes, in order. */
  function OnPath(ops: FloatOps, cfg: Config, msg: PathMsg): seq<MarkerArray>
  {
    if |msg.poses| == 0 then [ClearArray(cfg)]
    else
      var bad := BadKappas(ops, cfg.kappaMax, msg.poses);
      if |bad| == 0 then [ClearArray(cfg)] else [ClearArray(cfg), MarkerBatch(cfg, bad)]
  }

  /** The info messages one call of `path_cb` logs. */
  function OnPathLog(ops: FloatOps, cfg: Config, msg: PathMsg): seq<string>
  {
    if |msg.poses| != 0 && |BadKappas(ops, cfg.kappaMax, msg.poses)| == 0 then [AllOk] else []
  }

  /** Every call first publishes exactly one array holding exactly one marker,
      a DELETEALL in the configured frame; nothing published after it in the
      same call deletes anything. */
  lemma ClearComesFirst(ops: FloatOps, cfg: Config, msg: PathMsg)
    ensures var out := OnPath(ops, cfg, msg);
            1 <= |out| && |out[0]| == 1 &&
            out[0][0].action == DeleteAll && out[0][0].header.frameId == cfg.frameId
    ensures var out := OnPath(ops, cfg, msg);
            forall j, a :: 1 <= j < |out| && 0 <= a < |out[j]| ==> out[j][a].action == Add
  {
    var out: seq<MarkerArray> := OnPath(ops, cfg, msg);
    forall j: int, a: int | 1 <= j < |out| && 0 <= a < |out[j]|
      ensures out[j][a].action == Add
    {
      MarkerOfBatch(cfg, BadKappas(ops, cfg.kappaMax, msg.poses), a);
    }
  }

  /** An empty path yields the clear and nothing else, not even a log line. */
  lemma EmptyPathOnlyClear(ops: FloatOps, cfg: Config, msg: PathMsg)
    requires |msg.poses| == 0
    ensures OnPath(ops, cfg, msg) == [ClearArray(cfg)]
    ensures OnPathLog(ops, cfg, msg) == []
  {
  }

  /** A path of one to three poses is reported as all OK after the clear. */
  lemma ShortPathOnlyClear(ops: FloatOps, cfg: Config, msg: PathMsg)
    requires 1 <= |msg.poses| < 4
    ensures OnPath(ops, cfg, msg) == [ClearArray(cfg)]
    ensures OnPathLog(ops, cfg, msg) == [AllOk]
  {
    ShortPathNothingFlagged(ops, cfg.kappaMax, msg.poses);
  }

  /** A call publishes a batch after the clear exactly when some examined
      index has curvature above `kappa_max`, and then exactly one batch, with
      one sphere per flagged point plus one label per flagged point when labels
      are on; otherwise a non-empty path is reported as all OK. */
  lemma BatchIffSomethingFlagged(ops: FloatOps, cfg: Config, msg: PathMsg)
    ensures var out, p := OnPath(ops, cfg, msg), msg.poses;
            |out| <= 2 &&
            (|out| == 2 <==> exists i :: 1 <= i <= |p| - 3 && IsBad(ops, cfg.kappaMax, p, i))
    ensures var out, n := OnPath(ops, cfg, msg), |FlaggedIndices(ops, cfg.kappaMax, msg.poses)|;
            |out| == 2 ==> |out[1]| == (if cfg.showLabels then 2 * n else n)
    ensures var p := msg.poses;
            OnPathLog(ops, cfg, msg) == [AllOk] <==>
            |p| != 0 && forall i :: 1 <= i <= |p| - 3 ==> !IsBad(ops, cfg.kappaMax, p, i)
  {
    var p := msg.poses;
    BadKappasSpec(ops, cfg.kappaMax, p);
    var f := FlaggedIndices(ops, cfg.kappaMax, p);
    BatchLayout(cfg, BadKappas(ops, cfg.kappaMax, p));
    if f != [] {
      assert f[0] in f;
    }
  }

  // ---------------------------------------------------------------------------
  // The node
  // ---------------------------------------------------------------------------

  /** The running node: its resolved parameters, the numeric primitives it
      computes with, everything published on `bad_kappa` so far, and
      everything logged with `rospy.loginfo`. */
  class FindMaxCurvatureNode {
    const ops: FloatOps
    const cfg: Config
    var published: seq<MarkerArray>
    var infoLog: seq<string>

    /** Node start-up: resolve the parameters once; nothing is published yet. */
    constructor (ops: FloatOps, params: Params)
      ensures this.ops == ops && cfg == ResolveConfig(params)
      ensures published == [] && infoLog == []
    {
      this.ops := ops;
      cfg := ResolveConfig(params);
      published := [];
      infoLog := [];
    }

    /** `marker_pub.publish(ma)`. */
    method Publish(ma: MarkerArray)
      modifies this`published
      ensures published == old(published) + [ma]
    {
      published := published + [ma];
    }

    /** `publish_marker(bad_kappas)`: one batch, published as one array. */
    method PublishMarker(badKappas: seq<BadKappa>)
      modifies this`published
      ensures published == old(published) + [MarkerBatch(cfg, badKappas)]
    {
      var ma := BuildBatch(cfg, badKappas);
      Publish(ma);
    }

    /** `path_cb(msg)`: clear, return early on an empty path, scan, and either
        log that all points were OK or publish the batch. */
    method PathCb(msg: PathMsg)
      modifies this`published, this`infoLog
      ensures published == old(published) + OnPath(ops, cfg, msg)
      ensures infoLog == old(infoLog) + OnPathLog(ops, cfg, msg)
    {
      var clearMarker := DefaultMarker().(header := Header(cfg.frameId), action := DeleteAll);
      Publish([clearMarker]);
      if |msg.poses| == 0 {
        return;
      }
      var p := msg.poses;
      var badKappas := ScanBadKappas(ops, cfg.kappaMax, p);
      if |badKappas| == 0 {
        infoLog := infoLog + [AllOk];
      } else {
        PublishMarker(badKappas);
      }
    }
  }
}
