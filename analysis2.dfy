/** Analysis2.0.py: the events are first read into a dictionary of
    per-event dictionaries (strip to charge), then every threshold of a
    finer sweep counts, per event, the strips at or above it; the counts
    fill an efficiency object (pass/total per threshold) and one point of
    the average-cluster-size graph. */
module Analysis2 {
  import opened Wrappers
  import opened StripCharges
  import ThresholdScan
  import Analysis

  /** `charges_dict` of one event: strip index (the hit's `y`) to charge. */
  type ChargeDict = map<int, real>

  /** The dictionary an event's hits build, hit by hit, a later hit on a
      strip overwriting the earlier charge. */
  function Charges(event: Event): (r: ChargeDict)
    ensures |r| <= |event|
  {
    if event == [] then map[]
    else
      var last := event[|event| - 1];
      Charges(event[..|event| - 1])[last.y := last.charge]
  }

  /** One key per strip hit, and no other. */
  lemma {:induction false} ChargesKeys(event: Event)
    ensures Charges(event).Keys == set h | h in event :: h.y
  {
    if event != [] {
      var init, last := event[..|event| - 1], event[|event| - 1];
      assert event == init + [last];
      ChargesKeys(init);
    }
  }

  /** A hit with no later hit on its strip is the one whose charge stays. */
  lemma {:induction false} ChargesLastWriteWins(event: Event, j: nat)
    requires j < |event|
    requires forall k :: j < k < |event| ==> event[k].y != event[j].y
    ensures event[j].y in Charges(event) && Charges(event)[event[j].y] == event[j].charge
  {
    if j < |event| - 1 {
      ChargesLastWriteWins(event[..|event| - 1], j);
    }
  }

  /** A dictionary keyed 0..n-1: the only kind `ImportROOTFile` builds.
      Its values are iterated in key order, as they were inserted. */
  ghost predicate Numbered<T>(d: map<nat, T>)
  {
    forall i: nat :: i in d <==> i < |d|
  }

  /** `ImportROOTFile` over the event stream of the tree. The progress test
      `i/n_particles` divides by the configured number of events, so a tree
      with an event and a zero count raises ZeroDivisionError. */
  method ImportROOTFile(events: seq<Event>, nParticles: nat) returns (r: Result<map<nat, ChargeDict>, Error>)
    ensures r.Failure? <==> nParticles == 0 && events != []
    ensures r.Failure? ==> r.error == ZeroDivision
    ensures r.Success? ==> |r.value| == |events| && Numbered(r.value)
    ensures r.Success? ==> forall i :: 0 <= i < |events| ==> r.value[i] == Charges(events[i])
  {
    var i: nat := 0;
    var hitDict: map<nat, ChargeDict> := map[];
    for e := 0 to |events|
      invariant i == e
      invariant e > 0 ==> nParticles != 0
      invariant |hitDict| == i
      invariant forall j: nat :: j in hitDict <==> j < i
      invariant forall j :: 0 <= j < i ==> hitDict[j] == Charges(events[j])
    {
      if nParticles == 0 {
        return Failure(ZeroDivision);
      }
      var chargesDict := EventDict(events[e]);
      hitDict := hitDict[i := chargesDict];
      i := i + 1;
    }
    r := Success(hitDict);
  }

  /** The inner loop of `ImportROOTFile`: one event's dictionary, filled
      hit by hit. */
  method EventDict(event: Event) returns (chargesDict: ChargeDict)
    ensures chargesDict == Charges(event)
  {
    chargesDict := map[];
    for h := 0 to |event|
      invariant chargesDict == Charges(event[..h])
    {
      chargesDict := chargesDict[event[h].y := event[h].charge];
      assert event[..h + 1][..h] == event[..h];
    }
    assert event[..|event|] == event;
  }

  lemma SubsetCard(a: set<int>, b: set<int>)
    requires a <= b
    ensures |a| <= |b|
  {
    assert b == a + (b - a);
    assert a * (b - a) == {};
  }

  /** `sum(charge >= threshold for charge in event.values())`: the strips of
      the event at or above the threshold (inclusive, unlike the `>` of the
      other two scripts). */
  function CountAtLeast(d: ChargeDict, threshold: real): (c: nat)
    ensures c <= |d|
  {
    var passing := set y | y in d && d[y] >= threshold;
    SubsetCard(passing, d.Keys);
    |passing|
  }

  /** An event counts as passing exactly when one of its strips reaches the
      threshold. */
  lemma CountAtLeastPositive(d: ChargeDict, threshold: real)
    ensures CountAtLeast(d, threshold) > 0 <==> exists y :: y in d && d[y] >= threshold
  {
    var passing := set y | y in d && d[y] >= threshold;
    if exists y :: y in d && d[y] >= threshold {
      var y :| y in d && d[y] >= threshold;
      assert y in passing;
    }
  }

  /** A higher threshold never raises an event's count. */
  lemma CountAtLeastMonotone(d: ChargeDict, t1: real, t2: real)
    requires t1 <= t2
    ensures CountAtLeast(d, t2) <= CountAtLeast(d, t1)
  {
    SubsetCard(set y | y in d && d[y] >= t2, set y | y in d && d[y] >= t1);
  }

  /** `ScanThresholdDict`: one count per event, in event order. */
  method ScanThresholdDict(hitDict: map<nat, ChargeDict>, threshold: real) returns (clusterList: seq<nat>)
    requires Numbered(hitDict)
    ensures |clusterList| == |hitDict|
    ensures forall i :: 0 <= i < |hitDict| ==> clusterList[i] == CountAtLeast(hitDict[i], threshold)
    ensures forall i :: 0 <= i < |hitDict| ==> clusterList[i] <= |hitDict[i]|
  {
    clusterList := [];
    for e := 0 to |hitDict|
      invariant |clusterList| == e
      invariant forall i :: 0 <= i < e ==> clusterList[i] == CountAtLeast(hitDict[i], threshold)
    {
      var hits := CountAtLeast(hitDict[e], threshold);
      clusterList := clusterList + [hits];
    }
  }

  /** The counts of all events at one threshold. */
  function EventCounts(events: seq<Event>, threshold: real): (c: seq<nat>)
    ensures |c| == |events|
  {
    seq(|events|, i requires 0 <= i < |events| => CountAtLeast(Charges(events[i]), threshold))
  }

  /** `ScanThresholdTree`: the same counts, with each event's dictionary
      built on the fly from the tree instead of read from `hit_dict`. */
  method ScanThresholdTree(events: seq<Event>, threshold: real) returns (clusterList: seq<nat>)
    ensures clusterList == EventCounts(events, threshold)
  {
    clusterList := [];
    for e := 0 to |events|
      invariant |clusterList| == e
      invariant forall i :: 0 <= i < e ==> clusterList[i] == CountAtLeast(Charges(events[i]), threshold)
    {
      var event := events[e];
      var chargesDict: ChargeDict := map[];
      for h := 0 to |event|
        invariant chargesDict == Charges(event[..h])
      {
        chargesDict := chargesDict[event[h].y := event[h].charge];
        assert event[..h + 1][..h] == event[..h];
      }
      assert event[..|event|] == event;
      var hits := CountAtLeast(chargesDict, threshold);
      clusterList := clusterList + [hits];
    }
  }

  /** Number of non-zero counts: what `eff.Fill(bool(cluster), thr)` marks
      as passed. */
  function Passed(counts: seq<nat>): (p: nat)
    ensures p <= |counts|
  {
    if counts == [] then 0
    else Passed(counts[..|counts| - 1]) + (if counts[|counts| - 1] > 0 then 1 else 0)
  }

  /** Sum of the counts: with their number, what the mean of a graph point
      is computed from. */
  function Total(counts: seq<nat>): nat
  {
    if counts == [] then 0 else Total(counts[..|counts| - 1]) + counts[|counts| - 1]
  }

  /** Counts that are pointwise no larger pass no more often and sum to no
      more. */
  lemma {:induction false} PointwiseSmaller(a: seq<nat>, b: seq<nat>)
    requires |a| == |b|
    requires forall i :: 0 <= i < |a| ==> a[i] <= b[i]
    ensures Passed(a) <= Passed(b) && Total(a) <= Total(b)
  {
    if a != [] {
      PointwiseSmaller(a[..|a| - 1], b[..|b| - 1]);
    }
  }

  /** Every filled count either passes or is zero: the events that do not
      pass are exactly those with an empty cluster. */
  lemma {:induction false} PassedOrEmpty(counts: seq<nat>)
    ensures |counts| == Passed(counts) + |set i: nat | i < |counts| && counts[i] == 0|
  {
    if counts != [] {
      var init, last := counts[..|counts| - 1], counts[|counts| - 1];
      var before := set i: nat | i < |init| && init[i] == 0;
      var after := set i: nat | i < |counts| && counts[i] == 0;
      PassedOrEmpty(init);
      if last == 0 {
        assert after == before + {|init|};
      } else {
        assert after == before;
      }
    }
  }

  /** Raising the threshold never raises the number of passing events or
      the cluster-size sum. */
  lemma EventCountsMonotone(events: seq<Event>, t1: real, t2: real)
    requires t1 <= t2
    ensures Passed(EventCounts(events, t2)) <= Passed(EventCounts(events, t1))
    ensures Total(EventCounts(events, t2)) <= Total(EventCounts(events, t1))
  {
    forall i | 0 <= i < |events|
      ensures EventCounts(events, t2)[i] <= EventCounts(events, t1)[i]
    {
      CountAtLeastMonotone(Charges(events[i]), t1, t2);
    }
    PointwiseSmaller(EventCounts(events, t2), EventCounts(events, t1));
  }

  /** `np.arange(0, 8 + 0.1, 0.1)`: 81 thresholds, the end value 8 included. */
  const ThrStep: real := 0.1
  const ThrEnd: real := 8.0
  const NThr: nat := 81

  function Threshold(k: nat): real
  {
    k as real * ThrStep
  }

  /** The grid holds the points below `8 + 0.1`, its last point is 8, and
      each value occurs once, so `np.where(thr_range == thr)[0][0]` is the
      index of `thr`. */
  lemma SweepGrid()
    ensures forall k: nat :: k < NThr <==> Threshold(k) < ThrEnd + ThrStep
    ensures Threshold(NThr - 1) == ThrEnd
    ensures forall k1: nat, k2: nat :: Threshold(k1) == Threshold(k2) ==> k1 == k2
  {
  }

  /** One point of the cluster graph: the threshold, and the sum and number
      of the counts whose mean the script plots. */
  datatype GraphPoint = GraphPoint(thr: real, clusterSum: nat, nEvents: nat)

  /** Analysis2.0.py never writes to an empty name: the default "" gets
      the derived name, which Analysis.py keeps empty. */
  lemma NameNeverEmpty(inputName: string, outputName: string)
    ensures OutputName(inputName, outputName) != ""
    ensures OutputName(inputName, "") == Analysis.OutputName(inputName, Analysis.ZeroLiteral)
    ensures OutputName(inputName, "") != Analysis.OutputName(inputName, Analysis.Name(""))
  {
  }

  /** Per threshold index: the events passed and filled into the efficiency
      object, and the graph point. */
  datatype Sweep = Sweep(outputName: string, passed: seq<nat>, total: seq<nat>, points: seq<GraphPoint>)

  /** `if not output_name`: an empty name is replaced by the derived one. */
  function OutputName(inputName: string, outputName: string): (r: string)
    ensures outputName != "" ==> r == outputName
    ensures outputName == "" ==> r == Analysis.DerivedName(inputName)
  {
    if outputName == "" then Analysis.DerivedName(inputName) else outputName
  }

  /** The per-event counts at threshold index `k`. */
  function CountsAt(events: seq<Event>, k: nat): (c: seq<nat>)
    ensures |c| == |events|
  {
    EventCounts(events, Threshold(k) * ThresholdScan.ElectronsPerFC)
  }

  /** The passed count recorded at threshold index `k`. */
  function PassedAt(events: seq<Event>, k: nat): (p: nat)
    ensures p <= |events|
  {
    Passed(CountsAt(events, k))
  }

  /** Graph point `k`: the threshold, the sum of the counts and their
      number. */
  function PointAt(events: seq<Event>, k: nat): (g: GraphPoint)
    ensures g.thr == Threshold(k) && g.nEvents == |events|
  {
    GraphPoint(Threshold(k), Total(CountsAt(events, k)), |events|)
  }

  /** The mean of graph point `k` is taken over every event: its count is
      the events that pass plus those whose cluster is empty. */
  lemma PointAtMeanOverAll(events: seq<Event>, k: nat)
    ensures PointAt(events, k).nEvents
         == PassedAt(events, k) + |set i: nat | i < |events| && CountsAt(events, k)[i] == 0|
  {
    PassedOrEmpty(CountsAt(events, k));
  }

  /** `passed`, `total` and `points` are what the sweep over `events`
      records at each threshold index. */
  predicate Records(passed: seq<nat>, total: seq<nat>, points: seq<GraphPoint>, events: seq<Event>)
  {
    && |passed| == NThr && |total| == NThr && |points| == NThr
    && (forall k :: 0 <= k < NThr ==> passed[k] == PassedAt(events, k))
    && (forall k :: 0 <= k < NThr ==> total[k] == |events|)
    && (forall k :: 0 <= k < NThr ==> points[k] == PointAt(events, k))
  }

  /** `RunAnalysis` over the event stream of the input tree. */
  method RunAnalysis(inputName: string, outputName: string, events: seq<Event>, nParticles: nat)
    returns (r: Result<Sweep, Error>)
    ensures r.Failure? <==> nParticles == 0 && events != []
    ensures r.Failure? ==> r.error == ZeroDivision
    ensures r.Success? ==> r.value.outputName == OutputName(inputName, outputName)
    ensures r.Success? ==> Records(r.value.passed, r.value.total, r.value.points, events)
  {
    var name := OutputName(inputName, outputName);
    var imported := ImportROOTFile(events, nParticles);
    if imported.Failure? {
      return Failure(imported.error);
    }
    var passed, total, points := ThresholdLoop(imported.value, events);
    r := Success(Sweep(name, passed, total, points));
  }

  /** The `for thr in thr_range` loop of `RunAnalysis`. */
  method ThresholdLoop(hitDict: map<nat, ChargeDict>, events: seq<Event>)
    returns (passed: seq<nat>, total: seq<nat>, points: seq<GraphPoint>)
    requires Numbered(hitDict) && |hitDict| == |events|
    requires forall i :: 0 <= i < |events| ==> hitDict[i] == Charges(events[i])
    ensures Records(passed, total, points, events)
  {
    passed, total, points := [], [], [];
    for k := 0 to NThr
      invariant |passed| == k && |total| == k && |points| == k
      invariant forall j :: 0 <= j < k ==> passed[j] == PassedAt(events, j)
      invariant forall j :: 0 <= j < k ==> total[j] == |events|
      invariant forall j :: 0 <= j < k ==> points[j] == PointAt(events, j)
    {
      var p, t, point := ScanAt(hitDict, events, k);
      passed, total, points := passed + [p], total + [t], points + [point];
    }
  }

  /** One step of the threshold loop: count the events' strips at the
      threshold, fill the efficiency object and set graph point `k`. */
  method ScanAt(hitDict: map<nat, ChargeDict>, events: seq<Event>, k: nat)
    returns (passed: nat, total: nat, point: GraphPoint)
    requires Numbered(hitDict) && |hitDict| == |events|
    requires forall i :: 0 <= i < |events| ==> hitDict[i] == Charges(events[i])
    ensures passed == PassedAt(events, k) && total == |events|
    ensures point == PointAt(events, k)
  {
    var thr := Threshold(k);
    var thrE := thr * ThresholdScan.ElectronsPerFC;
    var clusterList := ScanThresholdDict(hitDict, thrE);
    assert clusterList == CountsAt(events, k);
    passed, total := FillEfficiency(clusterList);
    point := GraphPoint(thr, Total(clusterList), |clusterList|);
  }

  /** `for cluster in cluster_list: eff.Fill(bool(cluster), thr)`: the
      passed and total counts the efficiency object gains at one threshold. */
  method FillEfficiency(clusterList: seq<nat>) returns (passed: nat, total: nat)
    ensures passed == Passed(clusterList) && total == |clusterList|
  {
    passed, total := 0, 0;
    for c := 0 to |clusterList|
      invariant passed == Passed(clusterList[..c]) && total == c
    {
      if clusterList[c] > 0 {
        passed := passed + 1;
      }
      total := total + 1;
      assert clusterList[..c + 1][..c] == clusterList[..c];
    }
    assert clusterList[..|clusterList|] == clusterList;
  }

  /** Over the sweep the passed counts and the cluster-size sums never grow,
      and no threshold passes more events than were filled. */
  lemma SweepCurves(passed: seq<nat>, total: seq<nat>, points: seq<GraphPoint>, events: seq<Event>)
    requires Records(passed, total, points, events)
    ensures forall k :: 0 <= k < NThr ==> passed[k] <= total[k]
    ensures forall k1, k2 :: 0 <= k1 <= k2 < NThr ==> passed[k2] <= passed[k1]
    ensures forall k1, k2 :: 0 <= k1 <= k2 < NThr ==> points[k2].clusterSum <= points[k1].clusterSum
  {
    forall k1, k2 | 0 <= k1 <= k2 < NThr
      ensures passed[k2] <= passed[k1] && points[k2].clusterSum <= points[k1].clusterSum
    {
      EventCountsMonotone(events, Threshold(k1) * ThresholdScan.ElectronsPerFC, Threshold(k2) * ThresholdScan.ElectronsPerFC);
    }
  }
}
