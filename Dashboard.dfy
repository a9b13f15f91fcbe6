/** One rendering pass of the dashboard: decode the four selectors, narrow
    the dataset, add the tip percentage and compute every derived view. */
module Dashboard {
  import opened Wrappers
  import opened Tips
  import opened Filter
  import opened Sidebar
  import opened Stats
  import opened Grouping

  /** Everything the page shows for one selection, before display formatting. */
  datatype View = View(
    rows: seq<PercentRow>,
    summary: Summary,
    bySmoker: seq<SmokerTip>,
    byDayTime: seq<DayTimeRow>)

  /** The narrowing as the page performs it, from the selectors' strings:
      exactly the dataset rows the string test admits, in dataset order. */
  method FilterBySelection(tips: seq<Record>, sel: Selection) returns (df: seq<Record>)
    requires FromOptions(tips, sel)
    ensures df == Select(tips, ToCriteria(sel)) && IsSubseq(df, tips)
    ensures forall i :: 0 <= i < |df| ==> Admits(sel, df[i])
    ensures forall k :: 0 <= k < |tips| && Admits(sel, tips[k]) ==> tips[k] in df
  {
    var c := ToCriteria(sel);
    df := ApplyFilters(tips, c);
    forall i | 0 <= i < |df| ensures Admits(sel, df[i]) {
      SelectionAsCriteria(tips, sel, df[i]);
    }
    forall k | 0 <= k < |tips| && Admits(sel, tips[k]) ensures tips[k] in df {
      SelectionAsCriteria(tips, sel, tips[k]);
    }
  }

  /** The derived views of a selection drawn from the option lists: the rows
      the selection admits with their tip percentage, and the figures and
      tables computed over those rows. */
  method Render(tips: seq<Record>, sel: Selection) returns (v: View)
    requires FromOptions(tips, sel)
    ensures var df := Select(tips, ToCriteria(sel));
      v == View(WithTipPercent(df), Summarize(df), GroupBySmoker(df), GroupByDayTime(df))
    ensures forall i :: 0 <= i < |v.rows| ==> Admits(sel, v.rows[i].record)
  {
    var df := FilterBySelection(tips, sel);
    var rows := WithTipPercent(df);
    RowsAdmitted(sel, df, rows);
    v := View(rows, Summarize(df), GroupBySmoker(df), GroupByDayTime(df));
  }

  /** Proof step of `Render`: rows carrying the admitted records are admitted;
      stated apart so that `Render` does not unfold every view at once. */
  lemma RowsAdmitted(sel: Selection, df: seq<Record>, rows: seq<PercentRow>)
    requires forall i :: 0 <= i < |df| ==> Admits(sel, df[i])
    requires |rows| == |df| && forall i :: 0 <= i < |df| ==> rows[i].record == df[i]
    ensures forall i :: 0 <= i < |rows| ==> Admits(sel, rows[i].record)
  {
  }

  /** With every selector at "Todos" the page shows the whole dataset. */
  lemma AllTodosShowsEverything(tips: seq<Record>)
    ensures Select(tips, ToCriteria(Selection(All, All, All, All))) == tips
  {
    assert ToCriteria(Selection(All, All, All, All)) == NoFilter;
    NoFilterKeepsAll(tips);
  }

  /** A worked example: two bills, filtered on non-smokers. */
  lemma NonSmokerExample()
    ensures var a := Record(10.0, 2.0, Male, No, Sun, Dinner, 2);
      var b := Record(20.0, 4.0, Female, Yes, Sun, Dinner, 3);
      var df := Select([a, b], NoFilter.(smoker := Some(No)));
      && df == [a]
      && Summarize(df) == Summary(Some(10.0), Some(2.0), Some(2.0))
      && TipPercent(a) == Some(20.0)
  {
    var a := Record(10.0, 2.0, Male, No, Sun, Dinner, 2);
    var b := Record(20.0, 4.0, Female, Yes, Sun, Dinner, 3);
    assert [a, b][1..] == [b];
    assert Select([b], NoFilter.(smoker := Some(No))) == [];
    assert Sum([a], TotalBill) == 10.0 && Sum([a], Tip) == 2.0 && Sum([a], Size) == 2.0;
  }
}
