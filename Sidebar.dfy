/** The sidebar selectors: one option list per categorical column, the
    "Todos" sentinel first, and the decoding of the four chosen strings into
    filter criteria. */
module Sidebar {
  import opened Wrappers
  import opened Tips
  import opened Filter

  /** The selector text that stands for "no constraint". */
  const All: string := "Todos"

  predicate NoDup<T(==)>(s: seq<T>) {
    forall i, j :: 0 <= i < j < |s| ==> s[i] != s[j]
  }

  /** The position of the first occurrence of `x` in `s`. */
  function FirstIndex<T(==)>(s: seq<T>, x: T): (i: nat)
    requires x in s
    ensures i < |s| && s[i] == x && x !in s[..i]
  {
    if s[0] == x then 0 else 1 + FirstIndex(s[1..], x)
  }

  lemma {:induction false} FirstIndexExtend<T>(p: seq<T>, x: T, y: T)
    requires y in p
    ensures y in p + [x] && FirstIndex(p + [x], y) == FirstIndex(p, y)
  {
    if p[0] != y {
      assert (p + [x])[1..] == p[1..] + [x];
      FirstIndexExtend(p[1..], x, y);
    }
  }

  /** The distinct values of `s` in order of first appearance, as a data
      frame column's `unique()` gives them. */
  function Distinct<T(==)>(s: seq<T>): (r: seq<T>)
    ensures NoDup(r)
    ensures forall i :: 0 <= i < |s| ==> s[i] in r
    ensures forall i :: 0 <= i < |r| ==> r[i] in s
    ensures forall i, j :: 0 <= i < j < |r| ==> FirstIndex(s, r[i]) < FirstIndex(s, r[j])
  {
    if s == [] then []
    else
      var p, x := s[..|s| - 1], s[|s| - 1];
      assert s == p + [x];
      var d := Distinct(p);
      forall y | y in p ensures FirstIndex(s, y) == FirstIndex(p, y) {
        FirstIndexExtend(p, x, y);
      }
      if x in d then d
      else
        assert FirstIndex(s, x) == |p|;
        d + [x]
  }

  /** One column of the dataset as the text it displays. */
  function Column(tips: seq<Record>, f: Field): (col: seq<string>)
    ensures |col| == |tips| && forall i :: 0 <= i < |tips| ==> col[i] == Label(tips[i], f)
  {
    seq(|tips|, i requires 0 <= i < |tips| => Label(tips[i], f))
  }

  /** The choices offered for a column: the sentinel, then the column's
      distinct values in order of first appearance. */
  function Options(col: seq<string>): (r: seq<string>)
    requires All !in col
    ensures |r| >= 1 && r[0] == All && NoDup(r)
    ensures forall i :: 0 <= i < |col| ==> col[i] in r[1..]
    ensures forall j :: 1 <= j < |r| ==> r[j] in col
    ensures forall i, j :: 1 <= i < j < |r| ==> FirstIndex(col, r[i]) < FirstIndex(col, r[j])
  {
    var d := Distinct(col);
    assert ([All] + d)[1..] == d;
    [All] + d
  }

  /** The option list of column `f` of the dataset. */
  function OptionList(tips: seq<Record>, f: Field): (r: seq<string>)
    ensures |r| >= 1 && r[0] == All && NoDup(r)
    ensures forall i :: 0 <= i < |tips| ==> Label(tips[i], f) in r[1..]
    ensures forall j :: 1 <= j < |r| ==> r[j] in Column(tips, f)
    ensures forall i, j :: 1 <= i < j < |r| ==>
      FirstIndex(Column(tips, f), r[i]) < FirstIndex(Column(tips, f), r[j])
  {
    SentinelIsNoLabel(tips, f);
    Options(Column(tips, f))
  }

  /** The sentinel never occurs as a value of any column. */
  lemma SentinelIsNoLabel(tips: seq<Record>, f: Field)
    ensures All !in Column(tips, f)
  {
    forall r: Record ensures Label(r, f) != All {
      if f == TimeField && r.time == Lunch {
        assert Label(r, f)[0] == 'L';
      }
    }
  }

  function ParseSex(s: string): (r: Option<Sex>)
    ensures r.Some? ==> SexLabel(r.value) == s
    ensures r.None? ==> forall v :: SexLabel(v) != s
  {
    if s == "Male" then Some(Male) else if s == "Female" then Some(Female) else None
  }

  function ParseSmoker(s: string): (r: Option<Smoker>)
    ensures r.Some? ==> SmokerLabel(r.value) == s
    ensures r.None? ==> forall v :: SmokerLabel(v) != s
  {
    if s == "Yes" then Some(Yes) else if s == "No" then Some(No) else None
  }

  function ParseDay(s: string): (r: Option<Day>)
    ensures r.Some? ==> DayLabel(r.value) == s
    ensures r.None? ==> forall v :: DayLabel(v) != s
  {
    if s == "Thur" then Some(Thur)
    else if s == "Fri" then Some(Fri)
    else if s == "Sat" then Some(Sat)
    else if s == "Sun" then Some(Sun)
    else None
  }

  function ParseTime(s: string): (r: Option<Time>)
    ensures r.Some? ==> TimeLabel(r.value) == s
    ensures r.None? ==> forall v :: TimeLabel(v) != s
  {
    if s == "Lunch" then Some(Lunch) else if s == "Dinner" then Some(Dinner) else None
  }

  /** Decoding a value's text gives the value back. */
  lemma SexRoundTrip(v: Sex)
    ensures ParseSex(SexLabel(v)) == Some(v)
  {
  }

  lemma SmokerRoundTrip(v: Smoker)
    ensures ParseSmoker(SmokerLabel(v)) == Some(v)
  {
  }

  lemma DayRoundTrip(v: Day)
    ensures ParseDay(DayLabel(v)) == Some(v)
  {
  }

  lemma TimeRoundTrip(v: Time)
    ensures ParseTime(TimeLabel(v)) == Some(v)
  {
  }

  /** The four strings the selectors return. */
  datatype Selection = Selection(sex: string, smoker: string, day: string, time: string)

  function Chosen(sel: Selection, f: Field): string {
    match f
    case SexField => sel.sex
    case SmokerField => sel.smoker
    case DayField => sel.day
    case TimeField => sel.time
  }

  /** Each selector returns one of the options it offers. */
  predicate FromOptions(tips: seq<Record>, sel: Selection) {
    && sel.sex in OptionList(tips, SexField)
    && sel.smoker in OptionList(tips, SmokerField)
    && sel.day in OptionList(tips, DayField)
    && sel.time in OptionList(tips, TimeField)
  }

  /** The dashboard's own test on a row: each selector is the sentinel or
      equals the row's text in that column. */
  predicate Admits(sel: Selection, r: Record) {
    && (sel.sex == All || SexLabel(r.sex) == sel.sex)
    && (sel.smoker == All || SmokerLabel(r.smoker) == sel.smoker)
    && (sel.day == All || DayLabel(r.day) == sel.day)
    && (sel.time == All || TimeLabel(r.time) == sel.time)
  }

  /** The criteria the four choices stand for. A string that is neither the
      sentinel nor a value's text would decode to "no constraint", where the
      string test keeps no row; choices taken from the option lists are
      always one or the other (`SelectionAsCriteria`). */
  function ToCriteria(sel: Selection): Criteria {
    Criteria(ParseSex(sel.sex), ParseSmoker(sel.smoker), ParseDay(sel.day), ParseTime(sel.time))
  }

  /** Per selector: a choice that is the sentinel or the text of some value
      `v` decodes to a constraint that admits exactly the rows the dashboard's
      string test admits. */
  lemma SexDecodes(s: string, v: Sex, r: Record)
    requires s == All || s == SexLabel(v)
    ensures (s == All || SexLabel(r.sex) == s) <==> (ParseSex(s).None? || r.sex == ParseSex(s).value)
  {
    SexRoundTrip(v);
    SexRoundTrip(r.sex);
  }

  lemma SmokerDecodes(s: string, v: Smoker, r: Record)
    requires s == All || s == SmokerLabel(v)
    ensures (s == All || SmokerLabel(r.smoker) == s) <==> (ParseSmoker(s).None? || r.smoker == ParseSmoker(s).value)
  {
    SmokerRoundTrip(v);
    SmokerRoundTrip(r.smoker);
  }

  lemma DayDecodes(s: string, v: Day, r: Record)
    requires s == All || s == DayLabel(v)
    ensures (s == All || DayLabel(r.day) == s) <==> (ParseDay(s).None? || r.day == ParseDay(s).value)
  {
    DayRoundTrip(v);
    DayRoundTrip(r.day);
  }

  lemma TimeDecodes(s: string, v: Time, r: Record)
    requires s == All || s == TimeLabel(v)
    ensures (s == All || TimeLabel(r.time) == s) <==> (ParseTime(s).None? || r.time == ParseTime(s).value)
  {
    TimeRoundTrip(v);
    TimeRoundTrip(r.time);
  }

  /** A row of the dataset whose text in column `f` is the choice `s`, when
      `s` is not the sentinel. */
  lemma ChoiceWitness(tips: seq<Record>, s: string, f: Field) returns (w: Record)
    requires s in OptionList(tips, f)
    ensures s == All || Label(w, f) == s
    ensures s != All ==> w in tips
  {
    w := Record(0.0, 0.0, Male, Yes, Thur, Lunch, 0);
    if s != All {
      var opts := OptionList(tips, f);
      assert s in opts[1..] by {
        assert opts == [opts[0]] + opts[1..];
      }
      var j :| 1 <= j < |opts| && opts[j] == s;
      var i :| 0 <= i < |tips| && Column(tips, f)[i] == s;
      w := tips[i];
    }
  }

  /** The four selectors decode independently of each other. */
  lemma SelectionDecodes(sel: Selection, r: Record, w1: Sex, w2: Smoker, w3: Day, w4: Time)
    requires sel.sex == All || sel.sex == SexLabel(w1)
    requires sel.smoker == All || sel.smoker == SmokerLabel(w2)
    requires sel.day == All || sel.day == DayLabel(w3)
    requires sel.time == All || sel.time == TimeLabel(w4)
    ensures Admits(sel, r) <==> Matches(r, ToCriteria(sel))
  {
    SexDecodes(sel.sex, w1, r);
    SmokerDecodes(sel.smoker, w2, r);
    DayDecodes(sel.day, w3, r);
    TimeDecodes(sel.time, w4, r);
  }

  /** The choices other than the sentinel name values that occur. */
  lemma SexWitness(tips: seq<Record>, s: string) returns (v: Sex)
    requires s in OptionList(tips, SexField)
    ensures s == All || s == SexLabel(v)
  {
    var w := ChoiceWitness(tips, s, SexField);
    v := w.sex;
  }

  lemma SmokerWitness(tips: seq<Record>, s: string) returns (v: Smoker)
    requires s in OptionList(tips, SmokerField)
    ensures s == All || s == SmokerLabel(v)
  {
    var w := ChoiceWitness(tips, s, SmokerField);
    v := w.smoker;
  }

  lemma DayWitness(tips: seq<Record>, s: string) returns (v: Day)
    requires s in OptionList(tips, DayField)
    ensures s == All || s == DayLabel(v)
  {
    var w := ChoiceWitness(tips, s, DayField);
    v := w.day;
  }

  lemma TimeWitness(tips: seq<Record>, s: string) returns (v: Time)
    requires s in OptionList(tips, TimeField)
    ensures s == All || s == TimeLabel(v)
  {
    var w := ChoiceWitness(tips, s, TimeField);
    v := w.time;
  }

  /** For selections drawn from the option lists, the string test of the
      dashboard and the decoded criteria agree on every row. */
  lemma SelectionAsCriteria(tips: seq<Record>, sel: Selection, r: Record)
    requires FromOptions(tips, sel)
    ensures Admits(sel, r) <==> Matches(r, ToCriteria(sel))
  {
    var w1 := SexWitness(tips, sel.sex);
    var w2 := SmokerWitness(tips, sel.smoker);
    var w3 := DayWitness(tips, sel.day);
    var w4 := TimeWitness(tips, sel.time);
    SelectionDecodes(sel, r, w1, w2, w3, w4);
  }
}
