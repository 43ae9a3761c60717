/** Cross-talk redistribution of one event's strip charges, as
    allpixAnalysis.py and Analysis.py perform it on `stripChargeAdj`.

    In both scripts `for stripIndex in np.nonzero(stripCharge)` runs its body
    once, with `stripIndex` the whole array of non-zero strip indices, so the
    three updates in the `try` block are vectorised numpy updates of every
    non-zero strip at once, all reading charges from the original array:
      1. each non-zero strip loses `2*side*q + back*q` of its charge `q`;
      2. the element at index `stripIndex - 1` gains `side*q`; for strip 0
         that index is -1, which numpy reads as the LAST strip;
      3. the element at index `stripIndex + 1` gains `side*q`; when the last
         strip is non-zero that index array holds `nOfStrips`, numpy raises
         `IndexError` before writing anything, and the handler swallows it:
         no right-neighbour transfer happens for any strip of the event, while
         updates 1 and 2 stay applied.
    The model keeps these boundary effects. `Clamped` is the redistribution
    that drops out-of-range transfers instead; the two agree exactly when the
    first and last strips carry no charge. */
module CrossTalk {
  import opened StripCharges

  /** The strip numpy updates for index `j - 1`: strip 0 wraps to the last
      strip. */
  function StripBelow(j: nat, n: nat): (r: nat)
    requires j < n
    ensures r < n && r == Slot(j - 1, n)
  {
    if j == 0 then n - 1 else j - 1
  }

  /** The strip whose `index - 1` update lands on strip `t`. */
  function StripAbove(t: nat, n: nat): (r: nat)
    requires t < n
    ensures r < n && StripBelow(r, n) == t
  {
    if t == n - 1 then 0 else t + 1
  }

  /** The right-neighbour update raises `IndexError`: the last strip holds
      charge, so `stripIndex + 1` reaches past the end. */
  predicate RightOverflows(q: seq<real>)
  {
    |q| > 0 && q[|q| - 1] != 0.0
  }

  /** Update 1: `adj[stripIndex] -= 2 * chargeSide + chargeBack`. */
  function AfterSelfLoss(a: seq<real>, q: seq<real>, side: real, back: real): (r: seq<real>)
    requires |a| == |q|
    ensures |r| == |a|
  {
    seq(|a|, t requires 0 <= t < |a| =>
      if q[t] != 0.0 then a[t] - (2.0 * (side * q[t]) + back * q[t]) else a[t])
  }

  /** Update 2: `adj[stripIndex - 1] += chargeSide`, seen from the receiving
      strip `t`, which gets the charge of `StripAbove(t)`. */
  function AfterLeftTransfer(a: seq<real>, q: seq<real>, side: real): (r: seq<real>)
    requires |a| == |q|
    ensures |r| == |a|
  {
    seq(|a|, t requires 0 <= t < |a| =>
      var i := StripAbove(t, |a|);
      if q[i] != 0.0 then a[t] + side * q[i] else a[t])
  }

  /** `adj[stripIndex + 1] += chargeSide` when it goes through, seen from
      the receiving strip `t`, which gets the charge of strip `t - 1`. */
  function AddedFromBelow(a: seq<real>, q: seq<real>, side: real): (r: seq<real>)
    requires |a| == |q|
    ensures |r| == |a|
  {
    seq(|a|, t requires 0 <= t < |a| =>
      if t > 0 && q[t - 1] != 0.0 then a[t] + side * q[t - 1] else a[t])
  }

  /** Update 3: `adj[stripIndex + 1] += chargeSide`, or nothing at all when
      that raises `IndexError`. */
  function AfterRightTransfer(a: seq<real>, q: seq<real>, side: real): (r: seq<real>)
    requires |a| == |q|
    ensures |r| == |a|
  {
    if RightOverflows(q) then a else AddedFromBelow(a, q, side)
  }

  /** The `try` block applied to an adjusted array `a`, with every transfer
      computed from the original charges `q`. */
  function Transfer(a: seq<real>, q: seq<real>, side: real, back: real): (r: seq<real>)
    requires |a| == |q|
    ensures |r| == |a|
  {
    AfterRightTransfer(AfterLeftTransfer(AfterSelfLoss(a, q, side, back), q, side), q, side)
  }

  /** The adjusted array: `np.copy(stripCharge)` followed by the transfers. */
  function Redistributed(q: seq<real>, side: real, back: real): (r: seq<real>)
    ensures |r| == |q|
  {
    Transfer(q, q, side, back)
  }

  /** Update 1 on `adj`, in place. */
  method SubtractSelfLoss(q: array<real>, adj: array<real>, side: real, back: real)
    requires adj != q && adj.Length == q.Length
    modifies adj
    ensures adj[..] == AfterSelfLoss(old(adj[..]), q[..], side, back)
  {
    forall j | 0 <= j < q.Length && q[j] != 0.0 {
      adj[j] := adj[j] - (2.0 * (side * q[j]) + back * q[j]);
    }
    forall t | 0 <= t < q.Length
      ensures adj[t] == AfterSelfLoss(old(adj[..]), q[..], side, back)[t]
    {
    }
  }

  /** Update 2 on `adj`, in place. */
  method AddFromAbove(q: array<real>, adj: array<real>, side: real)
    requires adj != q && adj.Length == q.Length
    modifies adj
    ensures adj[..] == AfterLeftTransfer(old(adj[..]), q[..], side)
  {
    var n := q.Length;
    forall j | 0 <= j < n && q[j] != 0.0 {
      adj[if j == 0 then n - 1 else j - 1] := adj[StripBelow(j, n)] + side * q[j];
    }
    forall t | 0 <= t < n
      ensures adj[t] == AfterLeftTransfer(old(adj[..]), q[..], side)[t]
    {
      var i := StripAbove(t, n);
      if q[i] == 0.0 {
        assert forall j :: 0 <= j < n && q[j] != 0.0 ==> StripBelow(j, n) != t;
      }
    }
  }

  /** Update 3 on `adj`, in place, or the `IndexError` that cancels it. */
  method AddFromBelow(q: array<real>, adj: array<real>, side: real)
    requires adj != q && adj.Length == q.Length
    modifies adj
    ensures adj[..] == AfterRightTransfer(old(adj[..]), q[..], side)
  {
    var n := q.Length;
    if n > 0 && q[n - 1] != 0.0 {
      // `stripIndex + 1` reaches index n: numpy raises IndexError before
      // writing, and the handler discards it.
    } else {
      forall j | 0 <= j < n && q[j] != 0.0 {
        adj[j + 1] := adj[j + 1] + side * q[j];
      }
      forall t | 0 <= t < n
        ensures adj[t] == AddedFromBelow(old(adj[..]), q[..], side)[t]
      {
        if t == 0 || q[t - 1] == 0.0 {
          assert forall j :: 0 <= j < n && q[j] != 0.0 ==> j + 1 != t;
        }
      }
      assert AfterRightTransfer(old(adj[..]), q[..], side) == AddedFromBelow(old(adj[..]), q[..], side);
    }
  }

  /** The `try` block of the scripts: the three vectorised updates on `adj`
      in order. */
  method Redistribute(q: array<real>, adj: array<real>, side: real, back: real)
    requires adj != q && adj.Length == q.Length
    modifies adj
    ensures adj[..] == Transfer(old(adj[..]), q[..], side, back)
  {
    SubtractSelfLoss(q, adj, side, back);
    AddFromAbove(q, adj, side);
    AddFromBelow(q, adj, side);
  }

  /** What each strip ends up with, whatever the array `a` the update starts
      from: it loses `2*side*q[t] + back*q[t]` of its ORIGINAL charge, gains
      `side` times the original charge of the strip above (the last strip
      receiving from strip 0), and gains `side` times that of the strip below
      unless the last strip holds charge. The non-zero mask matters only for
      the `IndexError`. */
  lemma TransferAt(a: seq<real>, q: seq<real>, side: real, back: real, t: nat)
    requires |a| == |q| && t < |q|
    ensures Transfer(a, q, side, back)[t]
         == a[t] - (2.0 * side * q[t] + back * q[t])
            + side * q[StripAbove(t, |q|)]
            + (if !RightOverflows(q) && t > 0 then side * q[t - 1] else 0.0)
  {
  }

  /** With both coefficients zero the redistribution changes nothing. */
  lemma ZeroCoefficientsIdentity(q: seq<real>)
    ensures Redistributed(q, 0.0, 0.0) == q
  {
    forall t | 0 <= t < |q|
      ensures Redistributed(q, 0.0, 0.0)[t] == q[t]
    {
      TransferAt(q, q, 0.0, 0.0, t);
    }
  }

  lemma {:induction false} SelfLossAsSum(a: seq<real>, q: seq<real>, side: real, back: real)
    requires |a| == |q|
    ensures AfterSelfLoss(a, q, side, back) == Add(a, Scale(-(2.0 * side + back), q))
  {
    var c := -(2.0 * side + back);
    forall t | 0 <= t < |q|
      ensures AfterSelfLoss(a, q, side, back)[t] == Add(a, Scale(c, q))[t]
    {
      assert c * q[t] == -(2.0 * (side * q[t]) + back * q[t]);
    }
  }

  lemma {:induction false} SumAfterSelfLoss(a: seq<real>, q: seq<real>, side: real, back: real)
    requires |a| == |q|
    ensures Sum(AfterSelfLoss(a, q, side, back)) == Sum(a) - (2.0 * side + back) * Sum(q)
  {
    var c := -(2.0 * side + back);
    SelfLossAsSum(a, q, side, back);
    SumAdd(a, Scale(c, q));
    SumScale(c, q);
  }

  /** The array of charges each strip receives from the strip above it. */
  function Rotated(q: seq<real>): (r: seq<real>)
    ensures |r| == |q|
  {
    if q == [] then [] else q[1..] + [q[0]]
  }

  lemma {:induction false} LeftTransferAsSum(a: seq<real>, q: seq<real>, side: real)
    requires |a| == |q|
    ensures AfterLeftTransfer(a, q, side) == Add(a, Scale(side, Rotated(q)))
  {
    forall t | 0 <= t < |q|
      ensures AfterLeftTransfer(a, q, side)[t] == Add(a, Scale(side, Rotated(q)))[t]
    {
      assert Rotated(q)[t] == q[StripAbove(t, |q|)];
    }
  }

  lemma {:induction false} SumAfterLeftTransfer(a: seq<real>, q: seq<real>, side: real)
    requires |a| == |q|
    ensures Sum(AfterLeftTransfer(a, q, side)) == Sum(a) + side * Sum(q)
  {
    LeftTransferAsSum(a, q, side);
    SumAdd(a, Scale(side, Rotated(q)));
    SumScale(side, Rotated(q));
    if q != [] {
      SumConcat(q[1..], [q[0]]);
      assert Sum([q[0]]) == q[0];
    }
  }

  /** The array of charges each strip receives from the strip below it. */
  function Shifted(q: seq<real>): (r: seq<real>)
    ensures |r| == |q|
  {
    if q == [] then [] else [0.0] + q[..|q| - 1]
  }

  lemma {:induction false} RightTransferAsSum(a: seq<real>, q: seq<real>, side: real)
    requires |a| == |q| && !RightOverflows(q)
    ensures AfterRightTransfer(a, q, side) == Add(a, Scale(side, Shifted(q)))
  {
    var r := AddedFromBelow(a, q, side);
    var s := Add(a, Scale(side, Shifted(q)));
    assert AfterRightTransfer(a, q, side) == r;
    forall t | 0 <= t < |q|
      ensures r[t] == s[t]
    {
      if t == 0 {
        assert Shifted(q)[0] == 0.0;
        assert s[0] == a[0] + side * 0.0;
      } else {
        assert Shifted(q)[t] == q[t - 1];
        assert s[t] == a[t] + side * q[t - 1];
        if q[t - 1] == 0.0 {
          assert s[t] == a[t] + side * 0.0;
        }
      }
    }
  }

  lemma {:induction false} SumAfterRightTransfer(a: seq<real>, q: seq<real>, side: real)
    requires |a| == |q|
    ensures Sum(AfterRightTransfer(a, q, side))
         == if RightOverflows(q) then Sum(a) else Sum(a) + side * Sum(q)
  {
    if !RightOverflows(q) {
      RightTransferAsSum(a, q, side);
      SumAdd(a, Scale(side, Shifted(q)));
      SumScale(side, Shifted(q));
      if q != [] {
        var n := |q|;
        assert Shifted(q)[1..] == q[..n - 1];
        assert q == q[..n - 1] + [q[n - 1]];
        SumConcat(q[..n - 1], [q[n - 1]]);
        assert Sum([q[n - 1]]) == 0.0;
      }
    }
  }

  /** Charge balance of one event: the back-plane term always removes
      `back * sum`, and the whole side transfer to the right is lost when the
      last strip holds charge; the wrap-around at strip 0 loses nothing. */
  lemma ChargeBalance(q: seq<real>, side: real, back: real)
    ensures Sum(Redistributed(q, side, back))
         == (1.0 - back) * Sum(q) - (if RightOverflows(q) then side * Sum(q) else 0.0)
  {
    var a1 := AfterSelfLoss(q, q, side, back);
    var a2 := AfterLeftTransfer(a1, q, side);
    SumAfterSelfLoss(q, q, side, back);
    SumAfterLeftTransfer(a1, q, side);
    SumAfterRightTransfer(a2, q, side);
  }

  /** Redistribution that drops transfers to indices outside the sensor
      instead of wrapping or cancelling them. */
  function Clamped(q: seq<real>, side: real, back: real): (r: seq<real>)
    ensures |r| == |q|
  {
    seq(|q|, t requires 0 <= t < |q| =>
      q[t] - (2.0 * side * q[t] + back * q[t])
      + (if t + 1 < |q| then side * q[t + 1] else 0.0)
      + (if t > 0 then side * q[t - 1] else 0.0))
  }

  /** When neither edge strip holds charge, numpy's boundary behaviour is
      never triggered and the scripts compute the clamped redistribution. */
  lemma AgreesWithClampedAwayFromEdges(q: seq<real>, side: real, back: real)
    requires q != [] ==> q[0] == 0.0 && q[|q| - 1] == 0.0
    ensures Redistributed(q, side, back) == Clamped(q, side, back)
  {
    forall t | 0 <= t < |q|
      ensures Redistributed(q, side, back)[t] == Clamped(q, side, back)[t]
    {
      TransferAt(q, q, side, back, t);
    }
  }

  /** A hit on strip 0 sends charge to the last strip rather than dropping
      it: `[10, 0, 0, 0]` with side coupling 0.5 becomes `[0, 5, 0, 5]`,
      where the clamped redistribution gives `[0, 5, 0, 0]`. */
  lemma WrapAtFirstStrip()
    ensures Redistributed([10.0, 0.0, 0.0, 0.0], 0.5, 0.0) == [0.0, 5.0, 0.0, 5.0]
    ensures Clamped([10.0, 0.0, 0.0, 0.0], 0.5, 0.0) == [0.0, 5.0, 0.0, 0.0]
  {
    var q := [10.0, 0.0, 0.0, 0.0];
    forall t | 0 <= t < 4
      ensures Redistributed(q, 0.5, 0.0)[t] == [0.0, 5.0, 0.0, 5.0][t]
    {
      TransferAt(q, q, 0.5, 0.0, t);
    }
  }

  /** A hit on the last strip cancels every right-neighbour transfer of the
      event: `[0, 10, 0, 10]` with side coupling 0.5 becomes `[5, 0, 5, 0]`,
      where the clamped redistribution gives `[5, 0, 10, 0]`. */
  lemma CancelAtLastStrip()
    ensures Redistributed([0.0, 10.0, 0.0, 10.0], 0.5, 0.0) == [5.0, 0.0, 5.0, 0.0]
    ensures Clamped([0.0, 10.0, 0.0, 10.0], 0.5, 0.0) == [5.0, 0.0, 10.0, 0.0]
  {
    var q := [0.0, 10.0, 0.0, 10.0];
    forall t | 0 <= t < 4
      ensures Redistributed(q, 0.5, 0.0)[t] == [5.0, 0.0, 5.0, 0.0][t]
    {
      TransferAt(q, q, 0.5, 0.0, t);
    }
  }
}
