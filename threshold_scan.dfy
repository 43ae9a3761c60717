/** The threshold scan shared, line for line, by allpixAnalysis.py and
    Analysis.py: for every threshold of the sweep and every event, rebuild
    the dense strip-charge array, apply cross-talk when the script's gate
    lets it, count the strips strictly above the threshold (the cluster
    size) and, for a non-empty cluster, fill the efficiency and
    cluster-size histograms. Each histogram is modelled by one counter per
    threshold index: the efficiency histogram by the number of hit events,
    the cluster-size histogram by the sum of the cluster sizes it received
    (its entry count being the same number of hit events). */
module ThresholdScan {
  import opened Wrappers
  import opened StripCharges
  import opened CrossTalk

  /** Electrons per femtocoulomb: the scripts compare charges with
      `thr * 6242.2`. */
  const ElectronsPerFC: real := 6242.2

  /** `np.arange(thrStartFC, thrEndFC, thrStepFC)` with `(0, 8, 0.2)`:
      threshold `k` is `k * 0.2` fC, for the NThr indices below the end. */
  const ThrStart: real := 0.0
  const ThrEnd: real := 8.0
  const ThrStep: real := 0.2
  const NThr: nat := 40

  function Threshold(k: nat): real
  {
    ThrStart + k as real * ThrStep
  }

  /** The threshold in electrons (`thrE`). */
  function Cut(k: nat): real
  {
    Threshold(k) * ElectronsPerFC
  }

  /** The sweep holds exactly the grid points below the end value, as
      `np.arange` does, and is increasing. */
  lemma SweepGrid()
    ensures forall k: nat :: k < NThr <==> Threshold(k) < ThrEnd
    ensures forall k1: nat, k2: nat :: k1 <= k2 ==> Cut(k1) <= Cut(k2)
  {
  }

  /** Which cross-talk condition a script uses: `side > 0 or back > 0` in
      allpixAnalysis.py, `back > 0 and side > 0` in Analysis.py. */
  datatype Gate = EitherPositive | BothPositive

  /** Whichever the gate, two positive coefficients open it, and it stays
      shut unless one coefficient is positive. */
  predicate CrossTalkOn(gate: Gate, side: real, back: real)
    ensures side > 0.0 && back > 0.0 ==> CrossTalkOn(gate, side, back)
    ensures CrossTalkOn(gate, side, back) ==> side > 0.0 || back > 0.0
  {
    match gate
    case EitherPositive => side > 0.0 || back > 0.0
    case BothPositive => back > 0.0 && side > 0.0
  }

  predicate AllAddressable(events: seq<Event>, n: nat)
  {
    forall e :: e in events ==> Addressable(e, n)
  }

  /** `stripChargeAdj` of one event: the dense array, redistributed when the
      gate is open. It does not depend on the threshold. */
  function Adjusted(hits: Event, n: nat, side: real, back: real, gate: Gate): (r: seq<real>)
    requires Addressable(hits, n)
    ensures |r| == n
  {
    var q := Dense(hits, n);
    if CrossTalkOn(gate, side, back) then Redistributed(q, side, back) else q
  }

  /** `len(np.where(s > cut)[0])`: the number of strips strictly above the
      cut. */
  function CountAbove(s: seq<real>, cut: real): (c: nat)
    ensures c <= |s|
  {
    if s == [] then 0 else (if s[0] > cut then 1 else 0) + CountAbove(s[1..], cut)
  }

  /** A cluster is non-empty exactly when some strip is above the cut. */
  lemma {:induction false} CountAbovePositive(s: seq<real>, cut: real)
    ensures CountAbove(s, cut) > 0 <==> exists j :: 0 <= j < |s| && s[j] > cut
  {
    if s != [] {
      CountAbovePositive(s[1..], cut);
      if CountAbove(s[1..], cut) > 0 {
        var j :| 0 <= j < |s[1..]| && s[1..][j] > cut;
        assert s[j + 1] > cut;
      }
      if exists j :: 0 <= j < |s| && s[j] > cut {
        var j :| 0 <= j < |s| && s[j] > cut;
        if j > 0 {
          assert s[1..][j - 1] > cut;
        }
      }
    }
  }

  /** Raising the cut never enlarges a cluster. */
  lemma {:induction false} CountAboveMonotone(s: seq<real>, cut1: real, cut2: real)
    requires cut1 <= cut2
    ensures CountAbove(s, cut2) <= CountAbove(s, cut1)
  {
    if s != [] {
      CountAboveMonotone(s[1..], cut1, cut2);
    }
  }

  /** The cluster size of one event at one cut. */
  function Cluster(hits: Event, n: nat, side: real, back: real, gate: Gate, cut: real): (c: nat)
    requires Addressable(hits, n)
    ensures c <= n
  {
    CountAbove(Adjusted(hits, n, side, back, gate), cut)
  }

  /** Number of events whose cluster is non-empty: the fills of the
      efficiency histogram at that cut. */
  function HitEvents(events: seq<Event>, n: nat, side: real, back: real, gate: Gate, cut: real): (h: nat)
    requires AllAddressable(events, n)
    ensures h <= |events|
  {
    if events == [] then 0
    else
      var last := events[|events| - 1];
      assert last in events;
      HitEvents(events[..|events| - 1], n, side, back, gate, cut)
        + (if Cluster(last, n, side, back, gate, cut) > 0 then 1 else 0)
  }

  /** Sum of the cluster sizes of those events: what the cluster-size
      histogram accumulates at that cut. */
  function ClusterTotal(events: seq<Event>, n: nat, side: real, back: real, gate: Gate, cut: real): (t: nat)
    requires AllAddressable(events, n)
    ensures t == 0 <==> HitEvents(events, n, side, back, gate, cut) == 0
  {
    if events == [] then 0
    else
      var last := events[|events| - 1];
      assert last in events;
      var c := Cluster(last, n, side, back, gate, cut);
      ClusterTotal(events[..|events| - 1], n, side, back, gate, cut) + (if c > 0 then c else 0)
  }

  /** Every hit event adds at least one strip to the cluster-size sum. */
  lemma {:induction false} ClusterTotalAtLeastHits(events: seq<Event>, n: nat, side: real, back: real, gate: Gate, cut: real)
    requires AllAddressable(events, n)
    ensures HitEvents(events, n, side, back, gate, cut) <= ClusterTotal(events, n, side, back, gate, cut)
  {
    if events != [] {
      ClusterTotalAtLeastHits(events[..|events| - 1], n, side, back, gate, cut);
    }
  }

  lemma AddOneEvent(n: nat, h: nat, t: nat, c: nat)
    requires t <= n * h && c <= n
    ensures t + c <= n * (h + 1)
  {
    assert n * (h + 1) == n * h + n;
  }

  /** Every hit event adds at most `n` strips, so the mean cluster size over
      hit events lies in [1, n]. */
  lemma {:induction false} ClusterTotalAtMostStrips(events: seq<Event>, n: nat, side: real, back: real, gate: Gate, cut: real)
    requires AllAddressable(events, n)
    ensures ClusterTotal(events, n, side, back, gate, cut) <= n * HitEvents(events, n, side, back, gate, cut)
  {
    if events != [] {
      var init := events[..|events| - 1];
      var last := events[|events| - 1];
      assert last in events;
      ClusterTotalAtMostStrips(init, n, side, back, gate, cut);
      var h := HitEvents(init, n, side, back, gate, cut);
      var t := ClusterTotal(init, n, side, back, gate, cut);
      var c := Cluster(last, n, side, back, gate, cut);
      if c > 0 {
        assert HitEvents(events, n, side, back, gate, cut) == h + 1;
        assert ClusterTotal(events, n, side, back, gate, cut) == t + c;
        AddOneEvent(n, h, t, c);
      } else {
        assert HitEvents(events, n, side, back, gate, cut) == h;
        assert ClusterTotal(events, n, side, back, gate, cut) == t;
      }
    }
  }

  /** A higher cut never produces more hit events: the efficiency curve is
      non-increasing. */
  lemma {:induction false} HitEventsMonotone(events: seq<Event>, n: nat, side: real, back: real, gate: Gate, cut1: real, cut2: real)
    requires AllAddressable(events, n) && cut1 <= cut2
    ensures HitEvents(events, n, side, back, gate, cut2) <= HitEvents(events, n, side, back, gate, cut1)
  {
    if events != [] {
      var last := events[|events| - 1];
      assert last in events;
      HitEventsMonotone(events[..|events| - 1], n, side, back, gate, cut1, cut2);
      CountAboveMonotone(Adjusted(last, n, side, back, gate), cut1, cut2);
    }
  }

  /** The cluster size of one event, computed on arrays as the scripts do:
      fill, copy, redistribute the copy when the gate is open, count. */
  method EventCluster(hits: Event, n: nat, side: real, back: real, gate: Gate, thrE: real)
    returns (cluster: nat)
    requires Addressable(hits, n)
    ensures cluster == Cluster(hits, n, side, back, gate, thrE)
  {
    var stripCharge := FillStrips(hits, n);
    var stripChargeAdj := Copy(stripCharge);
    if CrossTalkOn(gate, side, back) {
      Redistribute(stripCharge, stripChargeAdj, side, back);
    }
    cluster := CountAbove(stripChargeAdj[..], thrE);
  }

  /** The event loop at one threshold: the number of efficiency-histogram
      fills and the sum of the cluster sizes filled. */
  method ScanEvents(events: seq<Event>, n: nat, side: real, back: real, gate: Gate, thrE: real)
    returns (hits: nat, clusters: nat)
    requires AllAddressable(events, n)
    ensures hits == HitEvents(events, n, side, back, gate, thrE)
    ensures clusters == ClusterTotal(events, n, side, back, gate, thrE)
  {
    hits, clusters := 0, 0;
    for e := 0 to |events|
      invariant hits == HitEvents(events[..e], n, side, back, gate, thrE)
      invariant clusters == ClusterTotal(events[..e], n, side, back, gate, thrE)
    {
      assert events[e] in events;
      var cluster := EventCluster(events[e], n, side, back, gate, thrE);
      if cluster > 0 {
        hits := hits + 1;
        clusters := clusters + cluster;
      }
      assert events[..e + 1][..e] == events[..e];
    }
    assert events[..|events|] == events;
  }

  /** The threshold x event loops of the scripts. The cross-talk
      redistribution is recomputed for every threshold, as the scripts do. */
  method ScanThresholds(events: seq<Event>, n: nat, side: real, back: real, gate: Gate)
    returns (hitEvents: seq<nat>, clusterSum: seq<nat>)
    requires AllAddressable(events, n)
    ensures |hitEvents| == NThr && |clusterSum| == NThr
    ensures forall k :: 0 <= k < NThr ==> hitEvents[k] == HitEvents(events, n, side, back, gate, Cut(k))
    ensures forall k :: 0 <= k < NThr ==> clusterSum[k] == ClusterTotal(events, n, side, back, gate, Cut(k))
  {
    hitEvents, clusterSum := [], [];
    for k := 0 to NThr
      invariant |hitEvents| == k && |clusterSum| == k
      invariant forall i :: 0 <= i < k ==> hitEvents[i] == HitEvents(events, n, side, back, gate, Cut(i))
      invariant forall i :: 0 <= i < k ==> clusterSum[i] == ClusterTotal(events, n, side, back, gate, Cut(i))
    {
      var hits, clusters := ScanEvents(events, n, side, back, gate, Cut(k));
      hitEvents, clusterSum := hitEvents + [hits], clusterSum + [clusters];
    }
  }

  /** The efficiency curve is non-increasing over the sweep. */
  lemma HitEventsNonIncreasing(events: seq<Event>, n: nat, side: real, back: real, gate: Gate, hitEvents: seq<nat>)
    requires AllAddressable(events, n) && |hitEvents| == NThr
    requires forall k :: 0 <= k < NThr ==> hitEvents[k] == HitEvents(events, n, side, back, gate, Cut(k))
    ensures forall k1, k2 :: 0 <= k1 <= k2 < NThr ==> hitEvents[k2] <= hitEvents[k1]
  {
    forall k1, k2 | 0 <= k1 <= k2 < NThr
      ensures hitEvents[k2] <= hitEvents[k1]
    {
      SweepGrid();
      HitEventsMonotone(events, n, side, back, gate, Cut(k1), Cut(k2));
    }
  }

  /** `effHist.Scale(1 / total)`: every counter divided by the number of
      events; Python's `1 / 0` raises ZeroDivisionError. */
  function Scaled(counts: seq<nat>, total: nat): (r: Result<seq<real>, Error>)
    ensures r.Failure? <==> total == 0
    ensures r.Failure? ==> r.error == ZeroDivision
    ensures r.Success? ==> |r.value| == |counts|
    ensures r.Success? ==> forall k :: 0 <= k < |counts| ==> r.value[k] * total as real == counts[k] as real
  {
    if total == 0 then Failure(ZeroDivision)
    else Success(seq(|counts|, k requires 0 <= k < |counts| => counts[k] as real / total as real))
  }

  lemma DivideMonotone(a: real, b: real, d: real)
    requires a <= b && d > 0.0
    ensures a / d <= b / d
  {
  }

  /** Scaling keeps the order of the counters and maps `[0, bound]` onto
      `[0, bound / total]`. */
  lemma ScaledOrder(counts: seq<nat>, total: nat, bound: nat)
    requires total > 0
    requires forall k1, k2 :: 0 <= k1 <= k2 < |counts| ==> counts[k2] <= counts[k1]
    requires forall k :: 0 <= k < |counts| ==> counts[k] <= bound
    ensures forall k1, k2 :: 0 <= k1 <= k2 < |counts| ==> Scaled(counts, total).value[k2] <= Scaled(counts, total).value[k1]
    ensures forall k :: 0 <= k < |counts| ==> 0.0 <= Scaled(counts, total).value[k] <= bound as real / total as real
  {
    var e := Scaled(counts, total).value;
    forall k1, k2 | 0 <= k1 <= k2 < |counts|
      ensures e[k2] <= e[k1]
    {
      DivideMonotone(counts[k2] as real, counts[k1] as real, total as real);
    }
    forall k | 0 <= k < |counts|
      ensures 0.0 <= e[k] <= bound as real / total as real
    {
      DivideMonotone(0.0, counts[k] as real, total as real);
      DivideMonotone(counts[k] as real, bound as real, total as real);
    }
  }

  /** What a scan leaves behind: the scaled efficiency histogram and, per
      threshold index, the number of hit events and the sum of their cluster
      sizes (the cluster-size histogram before `ProfileX`). */
  datatype Histograms = Histograms(efficiency: seq<real>, hitEvents: seq<nat>, clusterSum: seq<nat>)

  /** `h` is what the scan of `events` produces with this gate and these
      coefficients, scaled by `total` events. */
  predicate Describes(h: Histograms, events: seq<Event>, n: nat, total: nat, side: real, back: real, gate: Gate)
    requires AllAddressable(events, n)
  {
    && |h.hitEvents| == NThr && |h.clusterSum| == NThr
    && (forall k :: 0 <= k < NThr ==> h.hitEvents[k] == HitEvents(events, n, side, back, gate, Cut(k)))
    && (forall k :: 0 <= k < NThr ==> h.clusterSum[k] == ClusterTotal(events, n, side, back, gate, Cut(k)))
    && Scaled(h.hitEvents, total) == Success(h.efficiency)
  }

  /** The sweep followed by `effHist.Scale(1 / total)`. */
  method Sweep(events: seq<Event>, n: nat, total: nat, side: real, back: real, gate: Gate)
    returns (r: Result<Histograms, Error>)
    requires AllAddressable(events, n)
    ensures r.Failure? <==> total == 0
    ensures r.Failure? ==> r.error == ZeroDivision
    ensures r.Success? ==> Describes(r.value, events, n, total, side, back, gate)
  {
    var hitEvents, clusterSum := ScanThresholds(events, n, side, back, gate);
    var scaled := Scaled(hitEvents, total);
    if scaled.Failure? {
      return Failure(scaled.error);
    }
    r := Success(Histograms(scaled.value, hitEvents, clusterSum));
  }

  /** The curves a scan produces: efficiency non-increasing in the
      threshold and at most the share of events in the tree; the mean
      cluster size of the hit events between 1 and the number of strips. */
  lemma DescribedCurves(h: Histograms, events: seq<Event>, n: nat, total: nat, side: real, back: real, gate: Gate)
    requires AllAddressable(events, n)
    requires Describes(h, events, n, total, side, back, gate)
    ensures |h.efficiency| == NThr
    ensures forall k1, k2 :: 0 <= k1 <= k2 < NThr ==> h.efficiency[k2] <= h.efficiency[k1]
    ensures forall k :: 0 <= k < NThr ==> 0.0 <= h.efficiency[k] <= |events| as real / total as real
    ensures forall k :: 0 <= k < NThr ==> h.hitEvents[k] <= h.clusterSum[k] <= n * h.hitEvents[k]
  {
    HitEventsNonIncreasing(events, n, side, back, gate, h.hitEvents);
    ScaledOrder(h.hitEvents, total, |events|);
    forall k | 0 <= k < NThr
      ensures h.hitEvents[k] <= h.clusterSum[k] <= n * h.hitEvents[k]
    {
      ClusterTotalAtLeastHits(events, n, side, back, gate, Cut(k));
      ClusterTotalAtMostStrips(events, n, side, back, gate, Cut(k));
    }
  }
}
