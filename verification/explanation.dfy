/** The property page's explanation of a predicted price: the bar-chart data built
    from the SHAP contributions and the sign-inverted breakdown text beneath it. */
module Explanation {
  import opened Options
  import opened Text
  import opened Records

  // ---------------------------------------------------------------------------
  // Absolute values
  // ---------------------------------------------------------------------------

  function Abs(x: int): (r: nat)
    ensures r == x || r == -x
  {
    if x < 0 then -x else x
  }

  /** `{ ...item, value: Math.abs(item.value) }`. */
  function AbsValue(c: Contribution): Contribution {
    c.(value := Abs(c.value))
  }

  /** `items.map(item => ({ ...item, value: Math.abs(item.value) }))`. */
  function AbsValues(cs: seq<Contribution>): (r: seq<Contribution>)
    ensures |r| == |cs|
    ensures forall i :: 0 <= i < |cs| ==> r[i] == AbsValue(cs[i])
  {
    seq(|cs|, i requires 0 <= i < |cs| => AbsValue(cs[i]))
  }

  // ---------------------------------------------------------------------------
  // Stable sort by descending value
  // ---------------------------------------------------------------------------

  predicate SortedDesc(s: seq<Contribution>) {
    forall i, j :: 0 <= i < j < |s| ==> s[i].value >= s[j].value
  }

  /** The items of `s` whose value is `v`, in their order in `s`. */
  function WithValue(s: seq<Contribution>, v: int): (r: seq<Contribution>)
    ensures forall x :: x in r ==> x in s && x.value == v
  {
    if s == [] then [] else (if s[0].value == v then [s[0]] else []) + WithValue(s[1..], v)
  }

  /** `out` lists every group of equal values exactly as `input` does: the same
      items in the same relative order. This is what a stable sort promises. */
  ghost predicate KeepsTies(out: seq<Contribution>, input: seq<Contribution>) {
    forall v :: WithValue(out, v) == WithValue(input, v)
  }

  /** Places `x` before the first item of `t` whose value is not larger. */
  function Insert(x: Contribution, t: seq<Contribution>): (r: seq<Contribution>)
    ensures multiset(r) == multiset(t) + multiset{x}
    ensures forall i :: 0 <= i < |r| ==> r[i] == x || r[i] in t
  {
    if t == [] || x.value >= t[0].value then [x] + t
    else
      assert t == [t[0]] + t[1..];
      [t[0]] + Insert(x, t[1..])
  }

  lemma {:induction false} InsertSorted(x: Contribution, t: seq<Contribution>)
    requires SortedDesc(t)
    ensures SortedDesc(Insert(x, t))
  {
    if t == [] || x.value >= t[0].value {
      forall i, j | 0 <= i < j < |t| + 1
        ensures ([x] + t)[i].value >= ([x] + t)[j].value
      {
        if i == 0 {
          assert ([x] + t)[j] == t[j - 1];
          assert j - 1 == 0 || t[0].value >= t[j - 1].value;
        }
      }
    } else {
      var rest := Insert(x, t[1..]);
      InsertSorted(x, t[1..]);
      forall i, j | 0 <= i < j < |rest| + 1
        ensures ([t[0]] + rest)[i].value >= ([t[0]] + rest)[j].value
      {
        if i == 0 {
          var y := rest[j - 1];
          assert y == x || y in t[1..];
          if y in t[1..] {
            var k :| 0 <= k < |t[1..]| && t[1..][k] == y;
            assert t[k + 1] == y;
          }
        }
      }
    }
  }

  /** `.sort((a, b) => b.value - a.value)`: an insertion sort, stable like
      `Array.prototype.sort`. */
  function SortByValueDesc(s: seq<Contribution>): (r: seq<Contribution>)
    ensures multiset(r) == multiset(s)
    ensures SortedDesc(r)
  {
    if s == [] then []
    else
      assert s == [s[0]] + s[1..];
      var rest := SortByValueDesc(s[1..]);
      InsertSorted(s[0], rest);
      Insert(s[0], rest)
  }

  /** Filtering a sequence built by prepending one item. */
  lemma WithValueCons(x: Contribution, s: seq<Contribution>, v: int)
    ensures WithValue([x] + s, v) == (if x.value == v then [x] else []) + WithValue(s, v)
  {
    assert ([x] + s)[1..] == s;
  }

  /** Two items of different values can trade places without changing any group of ties. */
  lemma SwapDistinct(x: Contribution, y: Contribution, w: seq<Contribution>, v: int)
    requires x.value != y.value
    ensures WithValue([y] + ([x] + w), v) == WithValue([x] + ([y] + w), v)
  {
    WithValueCons(y, [x] + w, v);
    WithValueCons(x, w, v);
    WithValueCons(x, [y] + w, v);
    WithValueCons(y, w, v);
    var ws := WithValue(w, v);
    if v == x.value {
      assert [] + ([x] + ws) == [x] + ([] + ws);
    } else if v == y.value {
      assert [y] + ([] + ws) == [] + ([y] + ws);
    }
  }

  /** Inserting past a larger first item keeps that item first. */
  lemma InsertPast(x: Contribution, t: seq<Contribution>)
    requires t != [] && x.value < t[0].value
    ensures Insert(x, t) == [t[0]] + Insert(x, t[1..])
  {
  }

  /** Prepending the same item to two sequences with the same group of ties keeps them the same. */
  lemma ConsKeepsTie(y: Contribution, p: seq<Contribution>, q: seq<Contribution>, v: int)
    requires WithValue(p, v) == WithValue(q, v)
    ensures WithValue([y] + p, v) == WithValue([y] + q, v)
  {
    WithValueCons(y, p, v);
    WithValueCons(y, q, v);
  }

  lemma {:induction false} InsertKeepsTies(x: Contribution, t: seq<Contribution>, v: int)
    ensures WithValue(Insert(x, t), v) == WithValue([x] + t, v)
  {
    if t != [] && x.value < t[0].value {
      var y, w := t[0], t[1..];
      InsertPast(x, t);
      InsertKeepsTies(x, w, v);
      ConsKeepsTie(y, Insert(x, w), [x] + w, v);
      SwapDistinct(x, y, w, v);
      assert [y] + w == t;
    }
  }

  /** Sorting keeps ties in input order. */
  lemma {:induction false} SortKeepsTies(s: seq<Contribution>)
    ensures KeepsTies(SortByValueDesc(s), s)
  {
    if s != [] {
      SortKeepsTies(s[1..]);
      forall v
        ensures WithValue(SortByValueDesc(s), v) == WithValue(s, v)
      {
        InsertKeepsTies(s[0], SortByValueDesc(s[1..]), v);
        WithValueCons(s[0], SortByValueDesc(s[1..]), v);
        WithValueCons(s[0], s[1..], v);
        assert [s[0]] + s[1..] == s;
      }
    }
  }

  lemma SortedHeadIsMax(a: seq<Contribution>, x: Contribution)
    requires SortedDesc(a) && x in a
    ensures a[0].value >= x.value
  {
    var i :| 0 <= i < |a| && a[i] == x;
    assert i == 0 || a[0].value >= a[i].value;
  }

  lemma NoTiesMeansEmpty(s: seq<Contribution>)
    ensures (forall v :: WithValue(s, v) == []) ==> s == []
  {
    if s != [] {
      WithValueCons(s[0], s[1..], s[0].value);
      assert [s[0]] + s[1..] == s;
      assert WithValue(s, s[0].value) != [];
    }
  }

  /** Two sorted sequences with the same groups of ties start with the same item. */
  lemma SameHead(a: seq<Contribution>, b: seq<Contribution>)
    requires SortedDesc(a) && SortedDesc(b) && KeepsTies(a, b) && a != [] && b != []
    ensures a[0] == b[0]
  {
    var m := a[0].value;
    var n := b[0].value;
    var wa := WithValue(a, m);
    WithValueCons(a[0], a[1..], m);
    assert [a[0]] + a[1..] == a;
    assert wa[0] == a[0];
    assert wa == WithValue(b, m);
    assert wa[0] in b;
    SortedHeadIsMax(b, wa[0]);
    var wb := WithValue(b, n);
    WithValueCons(b[0], b[1..], n);
    assert [b[0]] + b[1..] == b;
    assert wb[0] == b[0];
    assert wb == WithValue(a, n);
    assert wb[0] in a;
    SortedHeadIsMax(a, wb[0]);
    assert m == n;
  }

  /** Removing a common first item keeps one group of ties equal. */
  lemma TailKeepsTie(a: seq<Contribution>, b: seq<Contribution>, v: int)
    requires a != [] && b != [] && a[0] == b[0] && WithValue(a, v) == WithValue(b, v)
    ensures WithValue(a[1..], v) == WithValue(b[1..], v)
  {
    assert [a[0]] + a[1..] == a && [b[0]] + b[1..] == b;
    WithValueCons(a[0], a[1..], v);
    WithValueCons(b[0], b[1..], v);
    var e := if a[0].value == v then [a[0]] else [];
    assert (e + WithValue(a[1..], v))[|e|..] == WithValue(a[1..], v);
    assert (e + WithValue(b[1..], v))[|e|..] == WithValue(b[1..], v);
  }

  /** A sequence sorted by descending value is determined by its groups of ties:
      two sorted sequences that agree on every group are equal. */
  lemma {:induction false} SortedTiesDetermine(a: seq<Contribution>, b: seq<Contribution>)
    requires SortedDesc(a) && SortedDesc(b) && KeepsTies(a, b)
    ensures a == b
    decreases |a|
  {
    if a == [] {
      assert forall v :: WithValue(b, v) == WithValue(a, v) == [];
      NoTiesMeansEmpty(b);
    } else if b == [] {
      assert forall v :: WithValue(a, v) == WithValue(b, v) == [];
      NoTiesMeansEmpty(a);
    } else {
      SameHead(a, b);
      forall v
        ensures WithValue(a[1..], v) == WithValue(b[1..], v)
      {
        TailKeepsTie(a, b, v);
      }
      SortedTiesDetermine(a[1..], b[1..]);
      assert a == [a[0]] + a[1..] && b == [b[0]] + b[1..];
    }
  }

  // ---------------------------------------------------------------------------
  // Chart data
  // ---------------------------------------------------------------------------

  /** The positive contributions then the negative ones, each with its absolute value. */
  function Concatenated(a: Attribution): seq<Contribution> {
    AbsValues(a.positive) + AbsValues(a.negative)
  }

  /** Every item of the concatenation is an item of one of the two lists with its
      value replaced by the absolute value, so its value is non-negative. */
  lemma ConcatenatedItem(a: Attribution, x: Contribution)
    requires x in Concatenated(a)
    ensures x.value >= 0
    ensures exists c :: c in a.positive + a.negative && x == AbsValue(c)
  {
    var i :| 0 <= i < |Concatenated(a)| && Concatenated(a)[i] == x;
    if i < |a.positive| {
      assert a.positive[i] == (a.positive + a.negative)[i];
      assert x == AbsValue(a.positive[i]);
    } else {
      var k := i - |a.positive|;
      assert a.negative[k] == (a.positive + a.negative)[i];
      assert x == AbsValue(a.negative[k]);
    }
  }

  /** Any rearrangement of the concatenation has its length and only its items. */
  lemma RearrangedConcatenation(a: Attribution, r: seq<Contribution>)
    requires multiset(r) == multiset(Concatenated(a))
    ensures |r| == |a.positive| + |a.negative|
    ensures forall i :: 0 <= i < |r| ==> r[i] in Concatenated(a) && r[i].value >= 0
  {
    assert |r| == |multiset(r)| == |Concatenated(a)|;
    forall i | 0 <= i < |r|
      ensures r[i] in Concatenated(a) && r[i].value >= 0
    {
      assert r[i] in multiset(r);
      ConcatenatedItem(a, r[i]);
    }
  }

  /** `shapData`: empty without SHAP contributions; otherwise every contribution,
      positives then negatives, with its absolute value, sorted by descending value
      with ties left in that order. */
  function ChartData(shap: Option<Attribution>): (r: seq<Contribution>)
    ensures shap.None? ==> r == []
    ensures shap.Some? ==> |r| == |shap.value.positive| + |shap.value.negative|
    ensures shap.Some? ==> multiset(r) == multiset(Concatenated(shap.value))
    ensures shap.Some? ==> KeepsTies(r, Concatenated(shap.value))
    ensures SortedDesc(r)
    ensures forall i :: 0 <= i < |r| ==> r[i].value >= 0
  {
    match shap
    case None => []
    case Some(a) =>
      var items := Concatenated(a);
      var r := SortByValueDesc(items);
      SortKeepsTies(items);
      RearrangedConcatenation(a, r);
      r
  }

  /** The chart order is the only stable descending order: a sequence is the chart
      data of an attribution exactly when it is sorted by descending value and keeps
      every group of equal values in concatenation order. */
  lemma ChartDataIsTheStableOrder(a: Attribution, r: seq<Contribution>)
    ensures r == ChartData(Some(a)) <==> SortedDesc(r) && KeepsTies(r, Concatenated(a))
  {
    if SortedDesc(r) && KeepsTies(r, Concatenated(a)) {
      var c := ChartData(Some(a));
      assert KeepsTies(r, c) by {
        forall v
          ensures WithValue(r, v) == WithValue(c, v)
        {
          assert WithValue(r, v) == WithValue(Concatenated(a), v);
          assert WithValue(c, v) == WithValue(Concatenated(a), v);
        }
      }
      SortedTiesDetermine(r, c);
    }
  }

  /** The transform changes only `value`: each chart entry is a contribution from
      one of the two lists with its value replaced by the absolute value. */
  lemma ChartChangesOnlyValue(a: Attribution, i: int)
    requires 0 <= i < |ChartData(Some(a))|
    ensures exists c :: c in a.positive + a.negative && ChartData(Some(a))[i] == AbsValue(c)
  {
    RearrangedConcatenation(a, ChartData(Some(a)));
    ConcatenatedItem(a, ChartData(Some(a))[i]);
  }

  // ---------------------------------------------------------------------------
  // Breakdown text
  // ---------------------------------------------------------------------------

  /** The icon beside a breakdown line: a rising arrow (green) or a falling one (red). */
  datatype Trend = Up | Down

  datatype BreakdownLine = BreakdownLine(trend: Trend, text: string)

  /** One breakdown line per item, with `item.text.replace(pat, rep)`. */
  function Relabel(items: seq<Contribution>, trend: Trend, pat: string, rep: string): (r: seq<BreakdownLine>)
    ensures |r| == |items|
    ensures forall i :: 0 <= i < |items| ==> r[i] == BreakdownLine(trend, ReplaceFirst(items[i].text, pat, rep))
  {
    seq(|items|, i requires 0 <= i < |items| => BreakdownLine(trend, ReplaceFirst(items[i].text, pat, rep)))
  }

  /** The "Detailed Influence Breakdown": the negative list first, shown rising with
      its first "reduced" read as "increased"; then the positive list, shown falling
      with its first "increased" read as "reduced". */
  function Breakdown(shap: Option<Attribution>): seq<BreakdownLine> {
    match shap
    case None => []
    case Some(a) =>
      Relabel(a.negative, Up, "reduced", "increased") + Relabel(a.positive, Down, "increased", "reduced")
  }

  /** Every negative item gives a rising line, in list order, whose text is the
      item's text with exactly its first "reduced" turned into "increased", or the
      text unchanged when it has no "reduced". */
  lemma BreakdownNegativeLine(a: Attribution, i: int)
    requires 0 <= i < |a.negative|
    ensures |Breakdown(Some(a))| == |a.negative| + |a.positive|
    ensures Breakdown(Some(a))[i].trend == Up
    ensures var t := a.negative[i].text;
            IndexOf(t, "reduced").None? ==> Breakdown(Some(a))[i].text == t
    ensures var t := a.negative[i].text;
            IndexOf(t, "reduced").Some? ==>
              var k := IndexOf(t, "reduced").value;
              Breakdown(Some(a))[i].text == t[..k] + "increased" + t[k + 7..]
  {
    ReplaceFirstSpec(a.negative[i].text, "reduced", "increased");
  }

  /** Every positive item gives a falling line after all negative ones, whose text is
      the item's text with exactly its first "increased" turned into "reduced", or the
      text unchanged when it has no "increased". */
  lemma BreakdownPositiveLine(a: Attribution, i: int)
    requires 0 <= i < |a.positive|
    ensures |Breakdown(Some(a))| == |a.negative| + |a.positive|
    ensures Breakdown(Some(a))[|a.negative| + i].trend == Down
    ensures var t := a.positive[i].text;
            IndexOf(t, "increased").None? ==> Breakdown(Some(a))[|a.negative| + i].text == t
    ensures var t := a.positive[i].text;
            IndexOf(t, "increased").Some? ==>
              var k := IndexOf(t, "increased").value;
              Breakdown(Some(a))[|a.negative| + i].text == t[..k] + "reduced" + t[k + 9..]
  {
    ReplaceFirstSpec(a.positive[i].text, "increased", "reduced");
  }

  // ---------------------------------------------------------------------------
  // The factors section
  // ---------------------------------------------------------------------------

  datatype Factors = Factors(chart: seq<Contribution>, breakdown: seq<BreakdownLine>)

  /** The "Price Influencing Factors" section, rendered only when `shapData` is non-empty. */
  function FactorsSection(shap: Option<Attribution>): (r: Option<Factors>)
    ensures r.Some? <==> shap.Some? && |shap.value.positive| + |shap.value.negative| > 0
    ensures r.Some? ==> r.value.chart == ChartData(shap) && r.value.breakdown == Breakdown(shap)
  {
    var chart := ChartData(shap);
    if |chart| > 0 then Some(Factors(chart, Breakdown(shap))) else None
  }

  /** A single positive contribution of -5000 whose text says "reduced": the chart
      shows 5000, and the breakdown keeps the text as it is, because the rule for
      positive items only rewrites "increased". */
  lemma SinglePositiveReducedExample()
    ensures var c := Contribution("sqft", "positive", -5000, "Size reduced price by $5000");
            var a := Some(Attribution([c], []));
            && ChartData(a) == [c.(value := 5000)]
            && Breakdown(a) == [BreakdownLine(Down, "Size reduced price by $5000")]
  {
    var c := Contribution("sqft", "positive", -5000, "Size reduced price by $5000");
    SingleChart(c);
    SingleBreakdown(c);
  }

  lemma SingleChart(c: Contribution)
    ensures ChartData(Some(Attribution([c], []))) == [AbsValue(c)]
  {
    var items := Concatenated(Attribution([c], []));
    assert items == [AbsValue(c)];
    assert SortByValueDesc(items) == Insert(items[0], []);
  }

  lemma SingleBreakdown(c: Contribution)
    requires 'n' !in c.text
    ensures Breakdown(Some(Attribution([c], []))) == [BreakdownLine(Down, c.text)]
  {
    OccurrenceHasPatternChars(c.text, "increased", 1);
    assert IndexOf(c.text, "increased").None?;
    ReplaceFirstSpec(c.text, "increased", "reduced");
  }
}
