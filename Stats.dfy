/** Column means over a set of rows and the derived tip percentage.
    A mean over no rows is undefined (`None`), as pandas reports NaN. */
module Stats {
  import opened Wrappers
  import opened Tips

  /** The numeric columns that are averaged. */
  datatype Measure = TotalBill | Tip | Size

  function Value(r: Record, m: Measure): real {
    match m
    case TotalBill => r.totalBill
    case Tip => r.tip
    case Size => r.size as real
  }

  function Sum(rs: seq<Record>, m: Measure): real {
    if rs == [] then 0.0 else Value(rs[0], m) + Sum(rs[1..], m)
  }

  lemma {:induction false} SumAppend(a: seq<Record>, b: seq<Record>, m: Measure)
    ensures Sum(a + b, m) == Sum(a, m) + Sum(b, m)
  {
    if a == [] {
      assert a + b == b;
    } else {
      assert (a + b)[1..] == a[1..] + b;
      SumAppend(a[1..], b, m);
    }
  }

  /** A sum of values that all lie in [lo, hi] lies in [n * lo, n * hi]. */
  lemma {:induction false} SumBounds(rs: seq<Record>, m: Measure, lo: real, hi: real)
    requires forall i :: 0 <= i < |rs| ==> lo <= Value(rs[i], m) <= hi
    ensures (|rs| as real) * lo <= Sum(rs, m) <= (|rs| as real) * hi
  {
    if rs != [] {
      SumBounds(rs[1..], m, lo, hi);
      var n := |rs[1..]| as real;
      assert (|rs| as real) == n + 1.0;
      assert (n + 1.0) * lo == n * lo + lo && (n + 1.0) * hi == n * hi + hi;
    }
  }

  /** The arithmetic mean of a non-empty set of rows: the value whose
      `|rs|`-fold multiple is the column's total. */
  function MeanOf(rs: seq<Record>, m: Measure): (mu: real)
    requires rs != []
    ensures mu * (|rs| as real) == Sum(rs, m)
  {
    Sum(rs, m) / (|rs| as real)
  }

  /** The column mean, undefined exactly on an empty selection. */
  function Mean(rs: seq<Record>, m: Measure): (r: Option<real>)
    ensures r.None? <==> rs == []
    ensures r.Some? ==> r.value * (|rs| as real) == Sum(rs, m)
  {
    if rs == [] then None else Some(MeanOf(rs, m))
  }

  /** A mean lies between the smallest and the largest value averaged. */
  lemma MeanBounds(rs: seq<Record>, m: Measure, lo: real, hi: real)
    requires rs != []
    requires forall i :: 0 <= i < |rs| ==> lo <= Value(rs[i], m) <= hi
    ensures lo <= MeanOf(rs, m) <= hi
  {
    SumBounds(rs, m, lo, hi);
    var n := |rs| as real;
    var mu := MeanOf(rs, m);
    assert mu * n == Sum(rs, m);
    assert (mu - lo) * n >= 0.0 && (hi - mu) * n >= 0.0;
    ProductSign(mu - lo, n);
    ProductSign(hi - mu, n);
  }

  lemma ProductSign(x: real, n: real)
    requires n > 0.0 && x * n >= 0.0
    ensures x >= 0.0
  {
  }

  /** The three headline figures of the dashboard. */
  datatype Summary = Summary(meanBill: Option<real>, meanTip: Option<real>, meanSize: Option<real>)

  /** Mean bill, mean tip and mean party size of the selected rows; all three
      are undefined together when nothing is selected. */
  function Summarize(df: seq<Record>): (s: Summary)
    ensures s.meanBill.None? <==> df == []
    ensures s.meanTip.None? <==> df == []
    ensures s.meanSize.None? <==> df == []
    ensures df != [] ==>
      && s.meanBill.value * (|df| as real) == Sum(df, TotalBill)
      && s.meanTip.value * (|df| as real) == Sum(df, Tip)
      && s.meanSize.value * (|df| as real) == Sum(df, Size)
  {
    Summary(Mean(df, TotalBill), Mean(df, Tip), Mean(df, Size))
  }

  /** The tip as a percentage of the bill; undefined when the bill is zero,
      where the data frame division yields an infinity or NaN. */
  function TipPercent(r: Record): (p: Option<real>)
    ensures p.None? <==> r.totalBill == 0.0
    ensures p.Some? ==> p.value * r.totalBill == r.tip * 100.0
  {
    if r.totalBill == 0.0 then None else Some(r.tip / r.totalBill * 100.0)
  }

  /** A non-negative tip on a positive bill is a non-negative percentage,
      and at most 100 when it does not exceed the bill. */
  lemma TipPercentRange(r: Record)
    requires r.totalBill > 0.0 && r.tip >= 0.0
    ensures TipPercent(r).Some? && TipPercent(r).value >= 0.0
    ensures r.tip <= r.totalBill ==> TipPercent(r).value <= 100.0
  {
    var p := TipPercent(r).value;
    assert p * r.totalBill == r.tip * 100.0;
  }

  /** A row of the frame after the `tip_percent` column is added. */
  datatype PercentRow = PercentRow(record: Record, tipPercent: Option<real>)

  /** Adds the `tip_percent` column: same rows, same order, every original
      field unchanged, and each row's own percentage beside it. */
  function WithTipPercent(df: seq<Record>): (rows: seq<PercentRow>)
    ensures |rows| == |df|
    ensures forall i :: 0 <= i < |df| ==>
      rows[i].record == df[i] && rows[i].tipPercent == TipPercent(df[i])
  {
    if df == [] then []
    else [PercentRow(df[0], TipPercent(df[0]))] + WithTipPercent(df[1..])
  }
}
