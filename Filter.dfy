/** Narrowing the dataset by equality constraints on the categorical fields.
    A `None` constraint is the dashboard's "Todos" choice: it admits every value. */
module Filter {
  import opened Wrappers
  import opened Tips

  datatype Criteria = Criteria(
    sex: Option<Sex>,
    smoker: Option<Smoker>,
    day: Option<Day>,
    time: Option<Time>)

  /** The criteria with every selector left at "Todos". */
  const NoFilter := Criteria(None, None, None, None)

  /** `r` satisfies every active constraint of `c`. */
  predicate Matches(r: Record, c: Criteria) {
    && (c.sex.None? || r.sex == c.sex.value)
    && (c.smoker.None? || r.smoker == c.smoker.value)
    && (c.day.None? || r.day == c.day.value)
    && (c.time.None? || r.time == c.time.value)
  }

  /** `a` is `b` with some elements dropped and the rest in their original order. */
  predicate IsSubseq<T(==)>(a: seq<T>, b: seq<T>)
    decreases |b|
  {
    if a == [] then true
    else if b == [] then false
    else if a[0] == b[0] then IsSubseq(a[1..], b[1..])
    else IsSubseq(a, b[1..])
  }

  /** The rows of `s` that match `c`, in the order of `s`: a boolean-mask
      selection `df[mask]` of a data frame. */
  function Select(s: seq<Record>, c: Criteria): (r: seq<Record>)
    ensures |r| <= |s|
    ensures forall i :: 0 <= i < |r| ==> Matches(r[i], c)
    ensures forall i :: 0 <= i < |s| && Matches(s[i], c) ==> s[i] in r
  {
    if s == [] then []
    else
      var rest := Select(s[1..], c);
      if Matches(s[0], c) then [s[0]] + rest else rest
  }

  /** The selection keeps the matching rows in their original order, each
      as often as the dataset holds it, and drops every other row. */
  lemma {:induction false} SelectIsSubseq(s: seq<Record>, c: Criteria)
    ensures IsSubseq(Select(s, c), s)
    ensures forall x :: multiset(Select(s, c))[x] == if Matches(x, c) then multiset(s)[x] else 0
  {
    if s != [] {
      SelectIsSubseq(s[1..], c);
      var rest := Select(s[1..], c);
      assert s == [s[0]] + s[1..];
      if Matches(s[0], c) {
        assert ([s[0]] + rest)[1..] == rest;
      } else {
        assert rest != [] ==> rest[0] != s[0];
      }
    }
  }

  /** With every selector at "Todos" the selection is the whole dataset, in order. */
  lemma {:induction false} NoFilterKeepsAll(s: seq<Record>)
    ensures Select(s, NoFilter) == s
  {
    if s != [] {
      NoFilterKeepsAll(s[1..]);
      assert s == [s[0]] + s[1..];
    }
  }

  /** No field is constrained by `a` and `b` to two different values. */
  predicate Compatible(a: Criteria, b: Criteria) {
    && (a.sex.None? || b.sex.None? || a.sex == b.sex)
    && (a.smoker.None? || b.smoker.None? || a.smoker == b.smoker)
    && (a.day.None? || b.day.None? || a.day == b.day)
    && (a.time.None? || b.time.None? || a.time == b.time)
  }

  /** The constraints of `a` and `b` together. */
  function Meet(a: Criteria, b: Criteria): (m: Criteria)
    requires Compatible(a, b)
    ensures forall x :: Matches(x, m) <==> Matches(x, a) && Matches(x, b)
  {
    Criteria(
      if a.sex.Some? then a.sex else b.sex,
      if a.smoker.Some? then a.smoker else b.smoker,
      if a.day.Some? then a.day else b.day,
      if a.time.Some? then a.time else b.time)
  }

  /** Two successive selections are one selection by the conjunction of their criteria. */
  lemma {:induction false} SelectFuse(s: seq<Record>, a: Criteria, b: Criteria)
    requires Compatible(a, b)
    ensures Select(Select(s, a), b) == Select(s, Meet(a, b))
  {
    if s != [] {
      SelectFuse(s[1..], a, b);
    }
  }

  /** The order in which two selections are applied does not matter. */
  lemma {:induction false} SelectCommutes(s: seq<Record>, a: Criteria, b: Criteria)
    ensures Select(Select(s, a), b) == Select(Select(s, b), a)
  {
    if s != [] {
      SelectCommutes(s[1..], a, b);
    }
  }

  /** Applying the same selection twice changes nothing more. */
  lemma SelectIdempotent(s: seq<Record>, c: Criteria)
    ensures Select(Select(s, c), c) == Select(s, c)
  {
    SelectFuse(s, c, c);
    assert Meet(c, c) == c;
  }

  /** A selection is empty exactly when no row matches: an empty result is
      a value, never a failure. */
  lemma SelectEmpty(s: seq<Record>, c: Criteria)
    ensures Select(s, c) == [] <==> forall k :: 0 <= k < |s| ==> !Matches(s[k], c)
  {
    var r := Select(s, c);
    if r != [] {
      SelectIsSubseq(s, c);
      assert multiset(r)[r[0]] > 0;
    }
  }

  /** The dashboard's four-stage narrowing of `df_filtered`: start from a copy of
      the dataset and, for each active selector in the order sex, smoker, day,
      time, keep only the rows with that value. */
  method ApplyFilters(tips: seq<Record>, c: Criteria) returns (df: seq<Record>)
    ensures df == Select(tips, c)
    ensures |df| <= |tips| && IsSubseq(df, tips)
    ensures forall i :: 0 <= i < |df| ==> Matches(df[i], c)
    ensures forall i :: 0 <= i < |tips| && Matches(tips[i], c) ==> tips[i] in df
  {
    // `done` holds the constraints applied so far
    ghost var done := NoFilter;
    df := tips;
    NoFilterKeepsAll(tips);
    if c.sex.Some? {
      df := Select(df, NoFilter.(sex := c.sex));
      SelectFuse(tips, done, NoFilter.(sex := c.sex));
    }
    done := Meet(done, NoFilter.(sex := c.sex));
    assert df == Select(tips, done);
    if c.smoker.Some? {
      df := Select(df, NoFilter.(smoker := c.smoker));
      SelectFuse(tips, done, NoFilter.(smoker := c.smoker));
    }
    done := Meet(done, NoFilter.(smoker := c.smoker));
    assert df == Select(tips, done);
    if c.day.Some? {
      df := Select(df, NoFilter.(day := c.day));
      SelectFuse(tips, done, NoFilter.(day := c.day));
    }
    done := Meet(done, NoFilter.(day := c.day));
    assert df == Select(tips, done);
    if c.time.Some? {
      df := Select(df, NoFilter.(time := c.time));
      SelectFuse(tips, done, NoFilter.(time := c.time));
    }
    done := Meet(done, NoFilter.(time := c.time));
    assert df == Select(tips, done);
    assert done == c;
    SelectIsSubseq(tips, c);
  }
}
