/** The aggregation step of the reviews dashboard: from a list of per-review sentiment
    records (category name -> label), select the K categories that most reviews mention and
    tally, for each, how many reviews call it "Negative" and how many call it "Positive". */
module Sentiment {
  import opened Wrappers

  /** One deserialized review: a sparse map from category name to sentiment label. */
  type Record = map<string, string>

  const Negative: string := "Negative"
  const Positive: string := "Positive"

  /** The labels every category can receive, left (negative) direction first. */
  const CategoryNames: seq<string> := [Negative, Positive]

  /** One row of the score table: a category with its [negative, positive] tallies. */
  datatype CategoryScore = CategoryScore(category: string, negative: nat, positive: nat)

  /** What the aggregation returns: the score table, in ranking order (the insertion order of
      the `scores` dict of `get_topK_categories_and_score`), and the fixed pair of label names. */
  datatype TopK = TopK(scores: seq<CategoryScore>, categoryNames: seq<string>)

  function Min(a: nat, b: nat): nat {
    if a <= b then a else b
  }

  // ---------------------------------------------------------------------------------------
  // Parsing: entries whose deserialization failed are dropped, the others kept in order.
  // ---------------------------------------------------------------------------------------

  /** The records whose parse succeeded, in input order. */
  function Parsed(entries: seq<Option<Record>>): (rs: seq<Record>)
    ensures |rs| <= |entries|
    ensures forall r :: r in rs <==> Some(r) in entries
  {
    if |entries| == 0 then []
    else
      var init := entries[..|entries| - 1];
      assert entries == init + [entries[|entries| - 1]];
      match entries[|entries| - 1]
      case None => Parsed(init)
      case Some(r) => Parsed(init) + [r]
  }

  /** Parsing distributes over concatenation of the input list. */
  lemma {:induction false} ParsedAppend(a: seq<Option<Record>>, b: seq<Option<Record>>)
    ensures Parsed(a + b) == Parsed(a) + Parsed(b)
    decreases |b|
  {
    if |b| == 0 {
      assert a + b == a;
    } else {
      var init := b[..|b| - 1];
      assert (a + b)[..|a + b| - 1] == a + init;
      assert (a + b)[|a + b| - 1] == b[|b| - 1];
      ParsedAppend(a, init);
    }
  }

  // ---------------------------------------------------------------------------------------
  // Counting cells of the table built from the parsed records.
  // ---------------------------------------------------------------------------------------

  /** Whether record `r` contributes to a tally of `key`. With no label this is the
      non-missing-cell count of the column; with a label, only cells equal to it count.
      A record without `key` never contributes: a missing cell is not a zero. */
  predicate Selects(r: Record, key: string, want: Option<string>) {
    key in r && (want.None? || r[key] == want.value)
  }

  /** The number of records that `Selects` picks out: `df[key].count()` with no label,
      `(df[key] == label).sum()` with one. */
  function Count(rs: seq<Record>, key: string, want: Option<string>): (n: nat)
    ensures n <= |rs|
  {
    if |rs| == 0 then 0
    else Count(rs[..|rs| - 1], key, want) + (if Selects(rs[|rs| - 1], key, want) then 1 else 0)
  }

  /** A tally is zero exactly when no record is picked out. */
  lemma {:induction false} CountZero(rs: seq<Record>, key: string, want: Option<string>)
    ensures Count(rs, key, want) == 0 <==> forall i :: 0 <= i < |rs| ==> !Selects(rs[i], key, want)
    decreases |rs|
  {
    if |rs| > 0 {
      var init := rs[..|rs| - 1];
      CountZero(init, key, want);
      assert forall i :: 0 <= i < |init| ==> init[i] == rs[i];
    }
  }

  /** The number of records that have a value for `key` (the column's non-missing count). */
  function KeyCount(rs: seq<Record>, key: string): nat {
    Count(rs, key, None)
  }

  /** The indices of the records that `Selects` picks out. */
  function Selected(rs: seq<Record>, key: string, want: Option<string>): set<nat> {
    set i: nat | i < |rs| && Selects(rs[i], key, want)
  }

  /** Extending the records by one adds at most the new index to a filter. */
  lemma SelectedSnoc(rs: seq<Record>, key: string, want: Option<string>)
    requires |rs| > 0
    ensures var n := |rs| - 1;
      Selected(rs, key, want) ==
        Selected(rs[..n], key, want) + (if Selects(rs[n], key, want) then {n} else {})
  {
    var n := |rs| - 1;
    assert forall i :: 0 <= i < n ==> rs[..n][i] == rs[i];
  }

  /** Each tally is the size of a filter over the records. */
  lemma {:induction false} CountIsFilterCount(rs: seq<Record>, key: string, want: Option<string>)
    ensures Count(rs, key, want) == |Selected(rs, key, want)|
    decreases |rs|
  {
    if |rs| == 0 {
      assert Selected(rs, key, want) == {};
    } else {
      var n := |rs| - 1;
      CountIsFilterCount(rs[..n], key, want);
      SelectedSnoc(rs, key, want);
      assert n !in Selected(rs[..n], key, want);
    }
  }

  /** A cell carries one label, so the two tallies together never exceed the number of
      records that have the category; labels other than the two are counted by neither. */
  lemma {:induction false} LabelCountsBounded(rs: seq<Record>, key: string)
    ensures Count(rs, key, Some(Negative)) + Count(rs, key, Some(Positive)) <= KeyCount(rs, key)
    decreases |rs|
  {
    if |rs| > 0 {
      LabelCountsBounded(rs[..|rs| - 1], key);
    }
  }

  /** Every category key that occurs in at least one record (the table's columns). */
  function AllKeys(rs: seq<Record>): (keys: set<string>)
    ensures forall key :: key in keys <==> exists i :: 0 <= i < |rs| && key in rs[i]
  {
    if |rs| == 0 then {}
    else
      var init := rs[..|rs| - 1];
      var keys := AllKeys(init) + rs[|rs| - 1].Keys;
      assert forall i :: 0 <= i < |init| ==> init[i] == rs[i];
      keys
  }

  /** A key has a positive non-missing count exactly when it is one of the table's columns. */
  lemma {:induction false} KeyCountPositive(rs: seq<Record>, key: string)
    ensures KeyCount(rs, key) > 0 <==> key in AllKeys(rs)
    decreases |rs|
  {
    if |rs| > 0 {
      KeyCountPositive(rs[..|rs| - 1], key);
    }
  }

  // ---------------------------------------------------------------------------------------
  // Top-K selection: categories ranked by non-missing count, descending, first k kept.
  // ---------------------------------------------------------------------------------------

  predicate Distinct(xs: seq<string>) {
    forall i, j :: 0 <= i < j < |xs| ==> xs[i] != xs[j]
  }

  /** Earlier keys have at least the non-missing count of later ones. */
  predicate RankedByCount(top: seq<string>, rs: seq<Record>) {
    forall i, j :: 0 <= i < j < |top| ==> KeyCount(rs, top[j]) <= KeyCount(rs, top[i])
  }

  /** No key of `keys` left out of `top` has a larger count than a key in `top`. */
  predicate Dominates(top: seq<string>, keys: set<string>, rs: seq<Record>) {
    forall i, y :: 0 <= i < |top| && y in keys && y !in top ==> KeyCount(rs, y) <= KeyCount(rs, top[i])
  }

  predicate IsMostFrequent(m: string, keys: set<string>, rs: seq<Record>) {
    m in keys && forall y :: y in keys ==> KeyCount(rs, y) <= KeyCount(rs, m)
  }

  lemma {:induction false} MostFrequentExists(keys: set<string>, rs: seq<Record>)
    requires keys != {}
    ensures exists m :: IsMostFrequent(m, keys, rs)
    decreases keys
  {
    var x :| x in keys;
    if keys == {x} {
      assert IsMostFrequent(x, keys, rs);
    } else {
      MostFrequentExists(keys - {x}, rs);
      var m :| IsMostFrequent(m, keys - {x}, rs);
      if KeyCount(rs, x) <= KeyCount(rs, m) {
        assert IsMostFrequent(m, keys, rs);
      } else {
        assert IsMostFrequent(x, keys, rs);
      }
    }
  }

  /** The first `k` keys of `keys` sorted by descending non-missing count. Equal counts may
      come out in any order: pandas' default `sort_values` is not stable, so which of several
      tied keys is chosen is left open here as well. */
  ghost function SelectTop(keys: set<string>, rs: seq<Record>, k: nat): (top: seq<string>)
    ensures |top| == Min(k, |keys|)
    ensures forall i :: 0 <= i < |top| ==> top[i] in keys
    ensures Distinct(top)
    ensures RankedByCount(top, rs)
    ensures Dominates(top, keys, rs)
    decreases k
  {
    if k == 0 || keys == {} then []
    else
      MostFrequentExists(keys, rs);
      var m :| IsMostFrequent(m, keys, rs);
      [m] + SelectTop(keys - {m}, rs, k - 1)
  }

  function Categories(scores: seq<CategoryScore>): seq<string> {
    seq(|scores|, i requires 0 <= i < |scores| => scores[i].category)
  }

  /** The score row of one category: how many records label it Negative and Positive. Each
      tally is the size of a filter over the records, and together they never exceed the
      records that have the category. */
  function ScoreOf(rs: seq<Record>, key: string): (s: CategoryScore)
    ensures s.category == key
    ensures s.negative == |Selected(rs, key, Some(Negative))|
    ensures s.positive == |Selected(rs, key, Some(Positive))|
    ensures s.negative + s.positive <= KeyCount(rs, key)
  {
    CountIsFilterCount(rs, key, Some(Negative));
    CountIsFilterCount(rs, key, Some(Positive));
    LabelCountsBounded(rs, key);
    CategoryScore(key, Count(rs, key, Some(Negative)), Count(rs, key, Some(Positive)))
  }

  /** The whole aggregation: parse, rank the columns, keep the top k (5 unless given), tally
      each. */
  ghost function TopKCategoriesAndScore(entries: seq<Option<Record>>, k: nat := 5): (result: TopK)
    ensures result.categoryNames == [Negative, Positive]
    ensures var rs := Parsed(entries);
      var top := Categories(result.scores);
      && |top| == Min(k, |AllKeys(rs)|)
      && (forall i :: 0 <= i < |top| ==> KeyCount(rs, top[i]) > 0)
      && Distinct(top)
      && RankedByCount(top, rs)
      && Dominates(top, AllKeys(rs), rs)
    ensures var rs := Parsed(entries);
      forall i :: 0 <= i < |result.scores| ==>
        && result.scores[i].negative == Count(rs, result.scores[i].category, Some(Negative))
        && result.scores[i].positive == Count(rs, result.scores[i].category, Some(Positive))
  {
    var rs := Parsed(entries);
    var top := SelectTop(AllKeys(rs), rs, k);
    PresentKeysCount(rs, top);
    TopK(ScoresFor(rs, top), CategoryNames)
  }

  /** The loop filling the `scores` dict: one row per selected key, in selection order, each
      holding the sizes of that key's Negative and Positive filters. */
  function ScoresFor(rs: seq<Record>, keys: seq<string>): (scores: seq<CategoryScore>)
    ensures Categories(scores) == keys
    ensures forall i :: 0 <= i < |scores| ==>
      && scores[i].negative == |Selected(rs, keys[i], Some(Negative))|
      && scores[i].positive == |Selected(rs, keys[i], Some(Positive))|
      && scores[i].negative + scores[i].positive <= KeyCount(rs, keys[i])
  {
    seq(|keys|, i requires 0 <= i < |keys| => ScoreOf(rs, keys[i]))
  }

  /** Keys taken from the table's columns all have a positive non-missing count. */
  lemma PresentKeysCount(rs: seq<Record>, keys: seq<string>)
    requires forall i :: 0 <= i < |keys| ==> keys[i] in AllKeys(rs)
    ensures forall i :: 0 <= i < |keys| ==> KeyCount(rs, keys[i]) > 0
  {
    forall i | 0 <= i < |keys|
      ensures KeyCount(rs, keys[i]) > 0
    {
      KeyCountPositive(rs, keys[i]);
    }
  }

  // ---------------------------------------------------------------------------------------
  // Properties of the aggregation as a whole.
  // ---------------------------------------------------------------------------------------

  /** For every selected category: negative + positive <= records having the category
      <= parsed records <= input entries. */
  lemma ScoreBounds(entries: seq<Option<Record>>, k: nat)
    ensures var result := TopKCategoriesAndScore(entries, k);
      var rs := Parsed(entries);
      forall i :: 0 <= i < |result.scores| ==>
        && result.scores[i].negative + result.scores[i].positive <= KeyCount(rs, result.scores[i].category)
        && KeyCount(rs, result.scores[i].category) <= |rs| <= |entries|
  {
    var result := TopKCategoriesAndScore(entries, k);
    var rs := Parsed(entries);
    forall i | 0 <= i < |result.scores|
      ensures result.scores[i].negative + result.scores[i].positive <= KeyCount(rs, result.scores[i].category)
    {
      LabelCountsBounded(rs, result.scores[i].category);
    }
  }

  /** Each tally is the number of parsed records whose cell for the category holds that label. */
  lemma ScoreIsFilterCount(entries: seq<Option<Record>>, k: nat, i: nat)
    requires i < |TopKCategoriesAndScore(entries, k).scores|
    ensures var s := TopKCategoriesAndScore(entries, k).scores[i];
      var rs := Parsed(entries);
      && s.negative == |Selected(rs, s.category, Some(Negative))|
      && s.positive == |Selected(rs, s.category, Some(Positive))|
      && KeyCount(rs, s.category) == |Selected(rs, s.category, None)|
  {
    var s := TopKCategoriesAndScore(entries, k).scores[i];
    var rs := Parsed(entries);
    CountIsFilterCount(rs, s.category, Some(Negative));
    CountIsFilterCount(rs, s.category, Some(Positive));
    CountIsFilterCount(rs, s.category, None);
  }

  /** The score table is empty exactly when k is 0 or no successfully parsed record names
      any category; in particular an empty input gives an empty table. */
  lemma EmptyScores(entries: seq<Option<Record>>, k: nat)
    ensures |TopKCategoriesAndScore(entries, k).scores| == 0 <==>
      (k == 0 || forall e :: e in entries && e.Some? ==> |e.value| == 0)
  {
    var rs := Parsed(entries);
    if forall e :: e in entries && e.Some? ==> |e.value| == 0 {
      forall i | 0 <= i < |rs|
        ensures rs[i] == map[]
      {
        assert rs[i] in rs;
      }
      assert AllKeys(rs) == {};
    } else {
      var e :| e in entries && e.Some? && |e.value| != 0;
      assert e == Some(e.value);
      assert e.value in rs;
      var key :| key in e.value;
      var i :| 0 <= i < |rs| && rs[i] == e.value;
      assert key in AllKeys(rs);
    }
  }

  /** An entry whose parse fails is skipped: the result is as if it were not in the list,
      so it changes no count, no ranking and no score. */
  lemma FailedParseChangesNothing(a: seq<Option<Record>>, b: seq<Option<Record>>, k: nat)
    ensures Parsed(a + [None] + b) == Parsed(a + b)
    ensures TopKCategoriesAndScore(a + [None] + b, k) == TopKCategoriesAndScore(a + b, k)
  {
    ParsedAppend(a + [None], b);
    ParsedAppend(a, [None]);
    ParsedAppend(a, b);
    assert Parsed([None]) == [];
  }
}
