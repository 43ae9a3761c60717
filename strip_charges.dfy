/** Per-event strip charges: the sparse hits the simulator records for one
    event, and the dense, zero-filled per-strip array the analysis builds
    from them (`stripCharge` in allpixAnalysis.py and Analysis.py). */
module StripCharges {

  /** One entry of an event's `dut` hit collection: the pixel index (`x`,
      `y`) and the collected charge in electrons. The strip sensor of the
      study numbers its strips along `x`. */
  datatype PixelHit = PixelHit(x: int, y: int, charge: real)

  type Event = seq<PixelHit>

  /** The element numpy addresses with index `i` in an array of length `n`:
      a negative index counts from the end. */
  function Slot(i: int, n: nat): (r: nat)
    requires -(n as int) <= i < n
    ensures r < n
    ensures r == i || r == i + n
  {
    if i < 0 then i + n else i
  }

  /** Every hit of the event addresses an element of an `n`-strip array
      (numpy raises `IndexError` for any other index, and the scripts do not
      catch it there). */
  predicate Addressable(hits: Event, n: nat)
  {
    forall h :: h in hits ==> -(n as int) <= h.x < n
  }

  /** `np.zeros(n)` */
  function Zeros(n: nat): (r: seq<real>)
    ensures |r| == n
    ensures forall j :: 0 <= j < n ==> r[j] == 0.0
  {
    seq(n, _ => 0.0)
  }

  /** The dense strip-charge array of an event: `np.zeros(n)` followed by
      `stripCharge[hit.x] = hit.charge` for the hits in order. */
  function Dense(hits: Event, n: nat): (r: seq<real>)
    requires Addressable(hits, n)
    ensures |r| == n
  {
    if hits == [] then Zeros(n)
    else
      var last := hits[|hits| - 1];
      assert last in hits;
      Dense(hits[..|hits| - 1], n)[Slot(last.x, n) := last.charge]
  }

  /** A strip that no hit addresses stays at zero. */
  lemma {:induction false} DenseUntouched(hits: Event, n: nat, s: nat)
    requires Addressable(hits, n) && s < n
    requires forall k :: 0 <= k < |hits| ==> Slot(hits[k].x, n) != s
    ensures Dense(hits, n)[s] == 0.0
  {
    if hits != [] {
      DenseUntouched(hits[..|hits| - 1], n, s);
    }
  }

  /** A strip addressed by several hits holds the charge of the last of
      them: a later hit on the same strip overwrites the earlier charge. */
  lemma {:induction false} DenseLastWriteWins(hits: Event, n: nat, j: nat)
    requires Addressable(hits, n) && j < |hits|
    requires forall k :: j < k < |hits| ==> Slot(hits[k].x, n) != Slot(hits[j].x, n)
    ensures Dense(hits, n)[Slot(hits[j].x, n)] == hits[j].charge
  {
    if j < |hits| - 1 {
      DenseLastWriteWins(hits[..|hits| - 1], n, j);
    }
  }

  /** Builds the dense array in place, one hit at a time, as the scripts
      do. */
  method FillStrips(hits: Event, n: nat) returns (a: array<real>)
    requires Addressable(hits, n)
    ensures fresh(a) && a[..] == Dense(hits, n)
  {
    a := new real[n](_ => 0.0);
    for i := 0 to |hits|
      invariant a[..] == Dense(hits[..i], n)
    {
      assert hits[i] in hits;
      a[Slot(hits[i].x, n)] := hits[i].charge;
      assert hits[..i + 1][..i] == hits[..i];
    }
    assert hits[..|hits|] == hits;
  }

  /** `np.copy(a)` */
  method Copy(a: array<real>) returns (b: array<real>)
    ensures fresh(b) && b[..] == a[..]
  {
    b := new real[a.Length](i requires 0 <= i < a.Length reads a => a[i]);
  }

  /** Total charge of an array (`sum` of its elements). */
  function Sum(s: seq<real>): real
  {
    if s == [] then 0.0 else s[0] + Sum(s[1..])
  }

  lemma {:induction false} SumConcat(a: seq<real>, b: seq<real>)
    ensures Sum(a + b) == Sum(a) + Sum(b)
  {
    if a == [] {
      assert a + b == b;
    } else {
      assert (a + b)[0] == a[0];
      assert (a + b)[1..] == a[1..] + b;
      SumConcat(a[1..], b);
    }
  }

  /** Element-wise sum of two arrays of the same length. */
  function Add(a: seq<real>, d: seq<real>): (r: seq<real>)
    requires |a| == |d|
    ensures |r| == |a|
  {
    seq(|a|, j requires 0 <= j < |a| => a[j] + d[j])
  }

  /** An array multiplied by a constant. */
  function Scale(c: real, x: seq<real>): (r: seq<real>)
    ensures |r| == |x|
  {
    seq(|x|, j requires 0 <= j < |x| => c * x[j])
  }

  lemma {:induction false} SumAdd(a: seq<real>, d: seq<real>)
    requires |a| == |d|
    ensures Sum(Add(a, d)) == Sum(a) + Sum(d)
  {
    if a != [] {
      assert Add(a, d)[1..] == Add(a[1..], d[1..]);
      SumAdd(a[1..], d[1..]);
    }
  }

  lemma {:induction false} SumScale(c: real, x: seq<real>)
    ensures Sum(Scale(c, x)) == c * Sum(x)
  {
    if x != [] {
      forall j | 0 <= j < |x| - 1
        ensures Scale(c, x)[1..][j] == Scale(c, x[1..])[j]
      {
        assert x[1..][j] == x[j + 1];
      }
      assert Scale(c, x)[1..] == Scale(c, x[1..]);
      SumScale(c, x[1..]);
      assert Sum(Scale(c, x)) == c * x[0] + c * Sum(x[1..]);
      assert c * Sum(x) == c * (x[0] + Sum(x[1..]));
    }
  }
}
