/** The two grouped views of the selected rows: mean tip per smoker status,
    and the (day, time) table of mean tip, mean bill and number of bills.
    Only groups that hold at least one row are reported, in the categorical
    order of their keys. */
module Grouping {
  import opened Wrappers
  import opened Tips
  import opened Filter
  import opened Stats

  // ---------------------------------------------------------------- smoker

  function SmokerGroup(df: seq<Record>, s: Smoker): seq<Record> {
    Select(df, NoFilter.(smoker := Some(s)))
  }

  datatype SmokerTip = SmokerTip(smoker: Smoker, meanTip: real)

  /** Mean tip per smoker status present in `df`, "Yes" before "No". */
  function GroupBySmoker(df: seq<Record>): (r: seq<SmokerTip>)
    ensures |r| <= 2
    ensures forall i :: 0 <= i < |r| ==>
      SmokerGroup(df, r[i].smoker) != [] && r[i].meanTip == MeanOf(SmokerGroup(df, r[i].smoker), Tip)
    ensures forall k :: 0 <= k < |df| ==> exists i :: 0 <= i < |r| && r[i].smoker == df[k].smoker
    ensures forall i, j :: 0 <= i < j < |r| ==> SmokerIndex(r[i].smoker) < SmokerIndex(r[j].smoker)
  {
    var yes, no := SmokerGroup(df, Yes), SmokerGroup(df, No);
    var r := (if yes == [] then [] else [SmokerTip(Yes, MeanOf(yes, Tip))])
      + (if no == [] then [] else [SmokerTip(No, MeanOf(no, Tip))]);
    forall k | 0 <= k < |df| ensures exists i :: 0 <= i < |r| && r[i].smoker == df[k].smoker {
      assert Matches(df[k], NoFilter.(smoker := Some(df[k].smoker)));
      if df[k].smoker == Yes {
        assert yes != [] && r[0].smoker == Yes;
      } else {
        assert no != [] && r[|r| - 1].smoker == No;
      }
    }
    r
  }

  /** The two smoker groups split the selected rows and their tips between them. */
  lemma {:induction false} SmokerPartition(df: seq<Record>, m: Measure)
    ensures |SmokerGroup(df, Yes)| + |SmokerGroup(df, No)| == |df|
    ensures Sum(SmokerGroup(df, Yes), m) + Sum(SmokerGroup(df, No), m) == Sum(df, m)
  {
    if df != [] {
      SmokerPartition(df[1..], m);
    }
  }

  // -------------------------------------------------------------- day/time

  function DayTimeGroup(df: seq<Record>, d: Day, t: Time): seq<Record> {
    Select(df, NoFilter.(day := Some(d), time := Some(t)))
  }

  datatype DayTimeRow = DayTimeRow(day: Day, time: Time, meanTip: real, meanBill: real, count: nat)

  /** `row` reports the rows of `df` on its day and time: there are some,
      `count` of them, with those mean tip and mean bill. */
  predicate Describes(df: seq<Record>, row: DayTimeRow) {
    var g := DayTimeGroup(df, row.day, row.time);
    && g != []
    && row.count == |g|
    && row.meanTip == MeanOf(g, Tip)
    && row.meanBill == MeanOf(g, TotalBill)
  }

  /** The table rows for the (day, time) slots from `k` on: one row for each
      slot that holds some rows of `df`, in slot order. */
  function TableFrom(df: seq<Record>, k: nat): seq<DayTimeRow>
    requires k <= 8
    decreases 8 - k
  {
    if k == 8 then []
    else
      var d, t := DayAt(k / 2), TimeAt(k % 2);
      var g := DayTimeGroup(df, d, t);
      var rest := TableFrom(df, k + 1);
      if g == [] then rest
      else [DayTimeRow(d, t, MeanOf(g, Tip), MeanOf(g, TotalBill), |g|)] + rest
  }

  predicate SlotsFrom(rows: seq<DayTimeRow>, k: nat) {
    forall i :: 0 <= i < |rows| ==> k <= Slot(rows[i].day, rows[i].time)
  }

  predicate SlotSorted(rows: seq<DayTimeRow>) {
    forall i, j :: 0 <= i < j < |rows| ==> Slot(rows[i].day, rows[i].time) < Slot(rows[j].day, rows[j].time)
  }

  lemma ConsOrdered(row: DayTimeRow, rest: seq<DayTimeRow>, k: nat)
    requires Slot(row.day, row.time) == k && SlotsFrom(rest, k + 1) && SlotSorted(rest)
    ensures SlotsFrom([row] + rest, k) && SlotSorted([row] + rest)
  {
    var r := [row] + rest;
    assert forall i :: 0 < i < |r| ==> r[i] == rest[i - 1];
  }

  /** The rows of the table come in strictly ascending slot order, from `k` on. */
  lemma {:induction false} TableOrdered(df: seq<Record>, k: nat)
    requires k <= 8
    decreases 8 - k
    ensures SlotsFrom(TableFrom(df, k), k) && SlotSorted(TableFrom(df, k))
  {
    if k < 8 {
      TableOrdered(df, k + 1);
      var d, t := DayAt(k / 2), TimeAt(k % 2);
      var g := DayTimeGroup(df, d, t);
      if g != [] {
        ConsOrdered(DayTimeRow(d, t, MeanOf(g, Tip), MeanOf(g, TotalBill), |g|), TableFrom(df, k + 1), k);
      }
    }
  }

  /** Every row of the table describes the rows of its own slot. */
  lemma {:induction false} TableDescribes(df: seq<Record>, k: nat)
    requires k <= 8
    decreases 8 - k
    ensures forall i :: 0 <= i < |TableFrom(df, k)| ==> Describes(df, TableFrom(df, k)[i])
  {
    if k < 8 {
      TableDescribes(df, k + 1);
      var r, rest := TableFrom(df, k), TableFrom(df, k + 1);
      if r != rest {
        assert forall i :: 0 < i < |r| ==> r[i] == rest[i - 1];
      }
    }
  }

  /** The (day, time) keys of the table rows, in order. */
  function Keys(rows: seq<DayTimeRow>): (ks: seq<(Day, Time)>)
    ensures |ks| == |rows| && forall i :: 0 <= i < |rows| ==> ks[i] == (rows[i].day, rows[i].time)
  {
    if rows == [] then [] else [(rows[0].day, rows[0].time)] + Keys(rows[1..])
  }

  /** Every slot from `k` on that holds some rows of `df` has a table row. */
  lemma {:induction false} TableComplete(df: seq<Record>, k: nat)
    requires k <= 8
    decreases 8 - k
    ensures forall d, t :: k <= Slot(d, t) && DayTimeGroup(df, d, t) != [] ==> (d, t) in Keys(TableFrom(df, k))
  {
    if k < 8 {
      TableComplete(df, k + 1);
      var d0, t0 := DayAt(k / 2), TimeAt(k % 2);
      var g := DayTimeGroup(df, d0, t0);
      var rest := TableFrom(df, k + 1);
      if g == [] {
        assert TableFrom(df, k) == rest;
        forall d, t | k <= Slot(d, t) && DayTimeGroup(df, d, t) != []
          ensures (d, t) in Keys(rest)
        {
          if Slot(d, t) == k {
            assert false;
          }
        }
      } else {
        var row := DayTimeRow(d0, t0, MeanOf(g, Tip), MeanOf(g, TotalBill), |g|);
        assert TableFrom(df, k) == [row] + rest;
        assert Keys([row] + rest)[0] == (d0, t0);
        forall d, t | k <= Slot(d, t) && DayTimeGroup(df, d, t) != []
          ensures (d, t) in Keys([row] + rest)
        {
          if Slot(d, t) == k {
            assert d == d0 && t == t0;
          } else {
            var i :| 0 <= i < |Keys(rest)| && Keys(rest)[i] == (d, t);
            assert Keys([row] + rest)[i + 1] == (d, t);
          }
        }
      }
    }
  }

  /** Every row of `df` lies in the group of its own day and time. */
  lemma OccursInOwnGroup(df: seq<Record>)
    ensures forall k :: 0 <= k < |df| ==> DayTimeGroup(df, df[k].day, df[k].time) != []
  {
    forall k | 0 <= k < |df| ensures DayTimeGroup(df, df[k].day, df[k].time) != [] {
      assert Matches(df[k], NoFilter.(day := Some(df[k].day), time := Some(df[k].time)));
    }
  }

  lemma SlotOrderIsLexicographic(r: seq<DayTimeRow>)
    requires forall i, j :: 0 <= i < j < |r| ==> Slot(r[i].day, r[i].time) < Slot(r[j].day, r[j].time)
    ensures forall i, j :: 0 <= i < j < |r| ==>
      DayIndex(r[i].day) < DayIndex(r[j].day) ||
      (r[i].day == r[j].day && TimeIndex(r[i].time) < TimeIndex(r[j].time))
  {
    forall i, j | 0 <= i < j < |r|
      ensures DayIndex(r[i].day) < DayIndex(r[j].day) ||
        (r[i].day == r[j].day && TimeIndex(r[i].time) < TimeIndex(r[j].time))
    {
      SlotIsLexicographic(r[i].day, r[i].time, r[j].day, r[j].time);
    }
  }

  /** The properties of the whole table, stated on `TableFrom(df, 0)`. */
  lemma TableRowsDescribe(df: seq<Record>)
    ensures forall i :: 0 <= i < |TableFrom(df, 0)| ==>
      Describes(df, TableFrom(df, 0)[i]) && TableFrom(df, 0)[i].count > 0
  {
    TableDescribes(df, 0);
  }

  lemma TableCoversAll(df: seq<Record>)
    ensures forall k :: 0 <= k < |df| ==> (df[k].day, df[k].time) in Keys(TableFrom(df, 0))
  {
    TableComplete(df, 0);
    OccursInOwnGroup(df);
  }

  lemma TableSorted(df: seq<Record>)
    ensures forall i, j :: 0 <= i < j < |TableFrom(df, 0)| ==>
      DayIndex(TableFrom(df, 0)[i].day) < DayIndex(TableFrom(df, 0)[j].day) ||
      (TableFrom(df, 0)[i].day == TableFrom(df, 0)[j].day &&
       TimeIndex(TableFrom(df, 0)[i].time) < TimeIndex(TableFrom(df, 0)[j].time))
  {
    TableOrdered(df, 0);
    SlotOrderIsLexicographic(TableFrom(df, 0));
  }

  /** The grouped (day, time) table: one row per pair that occurs in `df`,
      ascending by day and then by time. */
  function GroupByDayTime(df: seq<Record>): (r: seq<DayTimeRow>)
    ensures forall i :: 0 <= i < |r| ==> Describes(df, r[i]) && r[i].count > 0
    ensures forall k :: 0 <= k < |df| ==> (df[k].day, df[k].time) in Keys(r)
    ensures forall i, j :: 0 <= i < j < |r| ==>
      DayIndex(r[i].day) < DayIndex(r[j].day) ||
      (r[i].day == r[j].day && TimeIndex(r[i].time) < TimeIndex(r[j].time))
  {
    TableRowsDescribe(df);
    TableCoversAll(df);
    TableSorted(df);
    TableFrom(df, 0)
  }

  // ---------------------------------------------------------------- totals

  function SumCounts(rows: seq<DayTimeRow>): nat {
    if rows == [] then 0 else rows[0].count + SumCounts(rows[1..])
  }

  /** The total a column of means stands for: each mean times its count. */
  function Weighted(rows: seq<DayTimeRow>, m: Measure): real
    requires m != Size
  {
    if rows == [] then 0.0
    else
      (if m == Tip then rows[0].meanTip else rows[0].meanBill) * (rows[0].count as real)
      + Weighted(rows[1..], m)
  }

  /** The rows of `df` in slot `k` or later. */
  function FromSlot(df: seq<Record>, k: nat): seq<Record> {
    if df == [] then []
    else if k <= Slot(df[0].day, df[0].time) then [df[0]] + FromSlot(df[1..], k)
    else FromSlot(df[1..], k)
  }

  lemma {:induction false} FromSlotZero(df: seq<Record>)
    ensures FromSlot(df, 0) == df
  {
    if df != [] {
      FromSlotZero(df[1..]);
      assert df == [df[0]] + df[1..];
    }
  }

  lemma {:induction false} FromSlotEnd(df: seq<Record>)
    ensures FromSlot(df, 8) == []
  {
    if df != [] {
      FromSlotEnd(df[1..]);
    }
  }

  /** Slot `k` and the slots after it split the rows from slot `k` on. */
  lemma {:induction false} SplitSlot(df: seq<Record>, k: nat, m: Measure)
    requires k < 8
    ensures |FromSlot(df, k)| == |DayTimeGroup(df, DayAt(k / 2), TimeAt(k % 2))| + |FromSlot(df, k + 1)|
    ensures Sum(FromSlot(df, k), m) ==
      Sum(DayTimeGroup(df, DayAt(k / 2), TimeAt(k % 2)), m) + Sum(FromSlot(df, k + 1), m)
  {
    if df != [] {
      SplitSlot(df[1..], k, m);
      var r := df[0];
      assert Slot(r.day, r.time) == k <==> r.day == DayAt(k / 2) && r.time == TimeAt(k % 2);
      var g := DayTimeGroup(df, DayAt(k / 2), TimeAt(k % 2));
      var a, b := FromSlot(df[1..], k), FromSlot(df[1..], k + 1);
      var g' := DayTimeGroup(df[1..], DayAt(k / 2), TimeAt(k % 2));
      if Slot(r.day, r.time) == k {
        assert ([r] + a)[1..] == a && ([r] + g')[1..] == g';
      } else if Slot(r.day, r.time) > k {
        assert ([r] + a)[1..] == a && ([r] + b)[1..] == b;
      }
    }
  }

  lemma PrependTotals(g: seq<Record>, row: DayTimeRow, rest: seq<DayTimeRow>)
    requires g != [] && row.count == |g|
    requires row.meanTip == MeanOf(g, Tip) && row.meanBill == MeanOf(g, TotalBill)
    ensures SumCounts([row] + rest) == |g| + SumCounts(rest)
    ensures Weighted([row] + rest, Tip) == Sum(g, Tip) + Weighted(rest, Tip)
    ensures Weighted([row] + rest, TotalBill) == Sum(g, TotalBill) + Weighted(rest, TotalBill)
  {
    assert ([row] + rest)[1..] == rest;
  }

  lemma {:induction false} TableFromTotals(df: seq<Record>, k: nat)
    requires k <= 8
    decreases 8 - k
    ensures SumCounts(TableFrom(df, k)) == |FromSlot(df, k)|
    ensures Weighted(TableFrom(df, k), Tip) == Sum(FromSlot(df, k), Tip)
    ensures Weighted(TableFrom(df, k), TotalBill) == Sum(FromSlot(df, k), TotalBill)
  {
    if k == 8 {
      FromSlotEnd(df);
    } else {
      TableFromTotals(df, k + 1);
      SplitSlot(df, k, Tip);
      SplitSlot(df, k, TotalBill);
      var d, t := DayAt(k / 2), TimeAt(k % 2);
      var g := DayTimeGroup(df, d, t);
      var rest := TableFrom(df, k + 1);
      if g == [] {
        assert TableFrom(df, k) == rest;
      } else {
        var row := DayTimeRow(d, t, MeanOf(g, Tip), MeanOf(g, TotalBill), |g|);
        assert TableFrom(df, k) == [row] + rest;
        PrependTotals(g, row, rest);
      }
    }
  }

  /** The table accounts for every selected row exactly once: its counts add
      up to the number of rows, and each mean times its count adds up to the
      column's total. */
  lemma DayTimeTotals(df: seq<Record>)
    ensures SumCounts(GroupByDayTime(df)) == |df|
    ensures Weighted(GroupByDayTime(df), Tip) == Sum(df, Tip)
    ensures Weighted(GroupByDayTime(df), TotalBill) == Sum(df, TotalBill)
  {
    TableFromTotals(df, 0);
    FromSlotZero(df);
  }
}
