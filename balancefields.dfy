/**
 * Balance-related fields of an account and the severance components derived
 * from them: every node below the account whose tag is one of the explicit
 * balance tags, or whose upper-cased tag mentions a contribution or severance
 * keyword, contributes its trimmed text; values are grouped by tag,
 * deduplicated and joined with " | ". Severance columns then sum the
 * pipe-separated amounts of their tags.
 */
module BalanceFields {
  import opened Wrappers
  import opened Seqs
  import opened Text
  import opened Numeric
  import opened Document
  import opened Tables

  /** `any(keyword in s for keyword in keywords)`. */
  predicate AnyKeyword(s: string, keywords: seq<string>) {
    exists k :: 0 <= k < |keywords| && Contains(s, keywords[k])
  }

  /** A tag whose values are balance-related. */
  predicate IsBalanceTag(tag: string) {
    tag in BalanceExplicitTags || AnyKeyword(Upper(tag), BalanceKeywords)
  }

  /** A node the collector keeps: non-blank text under a balance-related tag. */
  predicate Kept(d: Doc, n: nat) {
    TextOf(d, n) != "" && Strip(TextOf(d, n)) != "" && IsBalanceTag(Tag(d, n))
  }

  /**
   * The collector's first loop: `collected.setdefault(tag, []).append(value)`
   * over the nodes `ids` in order.
   */
  function Grouped(d: Doc, ids: seq<nat>): (r: map<string, seq<string>>)
    ensures forall t :: t in r ==> IsBalanceTag(t) && r[t] != []
    decreases |ids|
  {
    if ids == [] then map[]
    else
      var m := Grouped(d, ids[..|ids| - 1]);
      var n := ids[|ids| - 1];
      if Kept(d, n) then
        var t := Tag(d, n);
        assert IsBalanceTag(t);
        m[t := (if t in m then m[t] else []) + [Strip(TextOf(d, n))]]
      else m
  }

  /** One more node extends the grouping exactly as the collector's loop body does. */
  lemma GroupedStep(d: Doc, ids: seq<nat>, k: nat)
    requires k < |ids|
    ensures var m := Grouped(d, ids[..k]);
            var n := ids[k];
            Grouped(d, ids[..k + 1])
              == if Kept(d, n) then m[Tag(d, n) := (if Tag(d, n) in m then m[Tag(d, n)] else []) + [Strip(TextOf(d, n))]] else m
  {
    assert ids[..k + 1][..k] == ids[..k];
  }

  /** Reference definition: the trimmed texts of the kept nodes of `ids` tagged `t`, in order. */
  function TextsWithTag(d: Doc, ids: seq<nat>, t: string): (r: seq<string>)
    ensures forall v :: v in r ==> v != ""
    decreases |ids|
  {
    if ids == [] then []
    else
      var n := ids[|ids| - 1];
      TextsWithTag(d, ids[..|ids| - 1], t) + (if Kept(d, n) && Tag(d, n) == t then [Strip(TextOf(d, n))] else [])
  }

  /**
   * Grouping by tag is filtering by tag: a tag is a key exactly when some kept
   * node carries it, and its list holds the texts of those nodes in document order.
   */
  lemma {:induction false} GroupedByTag(d: Doc, ids: seq<nat>, t: string)
    ensures t in Grouped(d, ids) <==> TextsWithTag(d, ids, t) != []
    ensures t in Grouped(d, ids) ==> Grouped(d, ids)[t] == TextsWithTag(d, ids, t)
    decreases |ids|
  {
    if ids != [] {
      GroupedByTag(d, ids[..|ids| - 1], t);
    }
  }

  /** Each group deduplicated (first occurrence kept) and joined with " | ". */
  function JoinGroups(g: map<string, seq<string>>): (r: map<string, string>)
    ensures r.Keys == g.Keys
    ensures forall t :: t in r ==> r[t] == Join(" | ", Dedupe(g[t]))
  {
    map t | t in g :: Join(" | ", Dedupe(g[t]))
  }

  /** `_collect_balance_related_fields`, as a value. */
  function BalanceRelated(d: Doc, account: nat): map<string, string> {
    JoinGroups(Grouped(d, Iter(d, account)))
  }

  /** The collector's second loop: deduplicates and joins each group. */
  method JoinEachGroup(collected: map<string, seq<string>>) returns (result: map<string, string>)
    ensures result == JoinGroups(collected)
  {
    result := map[];
    var keys := collected.Keys;
    while keys != {}
      invariant keys <= collected.Keys
      invariant forall t :: t in result <==> t in collected && t !in keys
      invariant forall t :: t in result ==> result[t] == Join(" | ", Dedupe(collected[t]))
      decreases keys
    {
      var t :| t in keys;
      var unique := DedupeInOrder(collected[t]);
      result := result[t := Join(" | ", unique)];
      keys := keys - {t};
    }
  }

  /**
   * `_collect_balance_related_fields`: one pass over the account and its
   * descendants in document order, grouping the trimmed texts of kept nodes
   * by tag, then one pass joining each group.
   */
  method CollectBalanceRelatedFields(d: Doc, account: nat) returns (result: map<string, string>)
    ensures result == BalanceRelated(d, account)
  {
    var ids := Iter(d, account);
    var collected: map<string, seq<string>> := map[];
    for k := 0 to |ids|
      invariant collected == Grouped(d, ids[..k])
    {
      GroupedStep(d, ids, k);
      var node := ids[k];
      var text := TextOf(d, node);
      if text == "" || Strip(text) == "" {
        continue;
      }
      var tag := Tag(d, node);
      var isExplicit := tag in BalanceExplicitTags;
      var hasKeyword := AnyKeyword(Upper(tag), BalanceKeywords);
      if !(isExplicit || hasKeyword) {
        continue;
      }
      var value := Strip(text);
      collected := collected[tag := (if tag in collected then collected[tag] else []) + [value]];
    }
    assert ids[..|ids|] == ids;
    result := JoinEachGroup(collected);
  }

  /** `[trim(p) for p in parts if trim(p)]`: each part trimmed, blanks dropped. */
  function TrimmedBy(parts: seq<string>, trim: string -> string): (r: seq<string>)
    ensures forall p :: p in r ==> p != ""
    decreases |parts|
  {
    if parts == [] then []
    else
      var p := trim(parts[|parts| - 1]);
      TrimmedBy(parts[..|parts| - 1], trim) + (if p != "" then [p] else [])
  }

  /** The stripped, non-empty segments of a list of parts. */
  function NonBlank(parts: seq<string>): (r: seq<string>)
    ensures forall p :: p in r ==> p != ""
  {
    TrimmedBy(parts, Strip)
  }

  /** `[part.strip() for part in s.split('|') if part.strip()]`. */
  function Segments(s: string): seq<string> {
    NonBlank(Split(s, '|'))
  }

  /** One segment's amount: commas dropped; sentinels and unparseable text count as nothing. */
  function SegmentAmount(part: string): real {
    var normalized := RemoveChar(part, ',');
    if normalized in NumericSentinels then 0.0
    else ParseFloat(normalized).GetOr(0.0)
  }

  /** The sum of the segments' amounts. */
  function SumAmounts(parts: seq<string>): real
    decreases |parts|
  {
    if parts == [] then 0.0 else SumAmounts(parts[..|parts| - 1]) + SegmentAmount(parts[|parts| - 1])
  }

  /** `_safe_sum_values` on a missing value or on text. */
  function SafeSumValues(value: Option<string>): real {
    match value
    case None => 0.0
    case Some(s) => SumAmounts(Segments(s))
  }

  lemma {:induction false} TrimmedByAppend(a: seq<string>, b: seq<string>, trim: string -> string)
    ensures TrimmedBy(a + b, trim) == TrimmedBy(a, trim) + TrimmedBy(b, trim)
    decreases |b|
  {
    if b == [] {
      assert a + b == a;
    } else {
      var ab := a + b;
      assert ab[..|ab| - 1] == a + b[..|b| - 1];
      assert ab[|ab| - 1] == b[|b| - 1];
      TrimmedByAppend(a, b[..|b| - 1], trim);
    }
  }

  lemma NonBlankAppend(a: seq<string>, b: seq<string>)
    ensures NonBlank(a + b) == NonBlank(a) + NonBlank(b)
  {
    TrimmedByAppend(a, b, Strip);
  }

  lemma {:induction false} SumAmountsAppend(a: seq<string>, b: seq<string>)
    ensures SumAmounts(a + b) == SumAmounts(a) + SumAmounts(b)
    decreases |b|
  {
    if b == [] {
      assert a + b == a;
    } else {
      assert (a + b)[..|a + b| - 1] == a + b[..|b| - 1];
      SumAmountsAppend(a, b[..|b| - 1]);
    }
  }

  /** Pipe-separated amounts add up: the sum over "a|b" is the sum over a plus the sum over b. */
  lemma SafeSumConcat(a: string, b: string)
    ensures SafeSumValues(Some(a + "|" + b)) == SafeSumValues(Some(a)) + SafeSumValues(Some(b))
  {
    assert a + "|" + b == a + ['|'] + b;
    SplitConcat(a, '|', b);
    NonBlankAppend(Split(a, '|'), Split(b, '|'));
    SumAmountsAppend(Segments(a), Segments(b));
  }

  /** Text that is one segment on its own, with nothing to trim, is that segment. */
  lemma SingleSegment(s: string)
    requires '|' !in s && s != "" && Strip(s) == s
    ensures Segments(s) == [s]
  {
    SplitWithoutSeparator(s, '|');
    NonBlankSingle(s);
  }

  /** A single part contributes its trimmed text when that is not blank. */
  lemma NonBlankSingle(s: string)
    ensures NonBlank([s]) == (if Strip(s) != "" then [Strip(s)] else [])
  {
    assert [s][..0] == [];
    assert TrimmedBy([], Strip) == [];
  }

  /** A run of digits that is not a sentinel is read as its decimal value. */
  lemma DigitsAmount(s: string)
    requires IsDigits(s) && s !in NumericSentinels
    ensures SegmentAmount(s) == DigitsValue(s) as real
  {
    NoCharInDigits(s, ',');
    NoCommaUnchanged(s);
    assert ParseFloat(s) == ParseMantissa(s) by {
      FloatOfNumeral(s);
    }
    assert ParseMantissa(s) == Some(DigitsValue(s) as real) by {
      NoCharInDigits(s, '.');
      SplitWithoutSeparator(s, '.');
    }
  }

  /** A single amount written in digits sums to its value. */
  lemma SafeSumOfDigits(s: string)
    requires IsDigits(s) && s !in NumericSentinels
    ensures SafeSumValues(Some(s)) == DigitsValue(s) as real
  {
    assert Segments(s) == [s] by {
      NoCharInDigits(s, '|');
      StripOfNumeral(s);
      SingleSegment(s);
    }
    assert SumAmounts([s]) == DigitsValue(s) as real by {
      DigitsAmount(s);
      SumOfOne(s);
    }
  }

  lemma SumOfOne(s: string)
    ensures SumAmounts([s]) == SegmentAmount(s)
  {
    assert [s][..0] == [];
  }

  /** A sentinel on its own, such as "NIL" or "0.00", sums to zero. */
  lemma SentinelSum(t: string)
    requires t in NumericSentinels
    ensures SafeSumValues(Some(t)) == 0.0
  {
    assert '|' !in t;
    assert t == [] || (t[0] !in Whitespace && t[|t| - 1] !in Whitespace);
    StripCharsOfStripped(t, Whitespace);
    SplitWithoutSeparator(t, '|');
    if t == "" {
      NonBlankSingle(t);
    } else {
      SingleSegment(t);
      SentinelSegment(t);
      SumOfOne(t);
    }
  }

  /**
   * A sentinel segment between two amounts is skipped: "100|NIL|250" sums to
   * the sum over "100" plus the sum over "250", that is 350.
   */
  lemma SafeSumAroundSentinel(a: string, t: string, b: string)
    requires t in NumericSentinels
    ensures SafeSumValues(Some(a + "|" + t + "|" + b)) == SafeSumValues(Some(a)) + SafeSumValues(Some(b))
  {
    assert a + "|" + t + "|" + b == a + "|" + (t + "|" + b);
    SafeSumConcat(a, t + "|" + b);
    SafeSumConcat(t, b);
    SentinelSum(t);
  }

  /** Text with no segment left after trimming, such as "" or " | ", sums to zero. */
  lemma SafeSumOfBlank(s: string)
    requires Segments(s) == []
    ensures SafeSumValues(Some(s)) == 0.0
  {
  }

  /** A sentinel segment contributes nothing. */
  lemma SentinelSegment(s: string)
    requires s in NumericSentinels
    ensures SegmentAmount(s) == 0.0
  {
    assert ',' !in s;
    NoCommaUnchanged(s);
  }

  lemma {:induction false} NoCommaUnchanged(s: string)
    requires ',' !in s
    ensures RemoveChar(s, ',') == s
    decreases |s|
  {
    if s != [] {
      NoCommaUnchanged(s[1..]);
      assert s == [s[0]] + s[1..];
    }
  }

  /** `sum(d.values())` of a dictionary of named amounts kept as a list of pairs. */
  function SumColumns(columns: seq<(string, real)>): real
    decreases |columns|
  {
    if columns == [] then 0.0 else SumColumns(columns[..|columns| - 1]) + columns[|columns| - 1].1
  }

  /** `_extract_severance_components`: the nonzero column sums, in column order. */
  function Severance(fields: map<string, string>): (r: seq<(string, real)>)
    ensures |r| <= |SeveranceColumnTags|
    ensures forall k :: 0 <= k < |r| ==> r[k].1 != 0.0
    ensures |fields| == 0 ==> r == []
    ensures |fields| > 0 ==>
              forall j :: 0 <= j < |SeveranceColumnTags| && ColumnTotal(fields, SeveranceColumnTags[j].1) != 0.0
                ==> (SeveranceColumnTags[j].0, ColumnTotal(fields, SeveranceColumnTags[j].1)) in r
    ensures SumColumns(r) == AllColumnsTotal(fields, SeveranceColumnTags)
  {
    if |fields| == 0 then
      SeveranceOfNoFields(SeveranceColumnTags);
      SeveranceKeepsSum(fields, SeveranceColumnTags);
      []
    else
      SeveranceKeepsSum(fields, SeveranceColumnTags);
      SeveranceFrom(fields, SeveranceColumnTags)
  }

  /** The sum of every column's total, zero or not. */
  function AllColumnsTotal(fields: map<string, string>, columns: seq<(string, seq<string>)>): real
    decreases |columns|
  {
    if columns == [] then 0.0
    else AllColumnsTotal(fields, columns[..|columns| - 1]) + ColumnTotal(fields, columns[|columns| - 1].1)
  }

  /** Dropping the zero columns does not change the sum: `severance_total` is the sum over all columns. */
  lemma {:induction false} SeveranceKeepsSum(fields: map<string, string>, columns: seq<(string, seq<string>)>)
    ensures SumColumns(SeveranceFrom(fields, columns)) == AllColumnsTotal(fields, columns)
    decreases |columns|
  {
    if columns != [] {
      var init := columns[..|columns| - 1];
      SeveranceKeepsSum(fields, init);
      var e := SeveranceFrom(fields, init);
      var last := columns[|columns| - 1];
      var total := ColumnTotal(fields, last.1);
      if total != 0.0 {
        assert (e + [(last.0, total)])[..|e|] == e;
      } else {
        assert e + [] == e;
      }
    }
  }

  /**
   * Columns are emitted one at a time, so the components come out in column
   * order; with the one-column case (the column and its total when nonzero,
   * else nothing) this fixes the result.
   */
  lemma {:induction false} SeveranceFromAppend(fields: map<string, string>, a: seq<(string, seq<string>)>, b: seq<(string, seq<string>)>)
    ensures SeveranceFrom(fields, a + b) == SeveranceFrom(fields, a) + SeveranceFrom(fields, b)
    decreases |b|
  {
    if b == [] {
      assert a + b == a;
    } else {
      var init := b[..|b| - 1];
      assert (a + b)[..|a + b| - 1] == a + init;
      assert (a + b)[|a + b| - 1] == b[|b| - 1];
      SeveranceFromAppend(fields, a, init);
    }
  }

  /** The sum of a column's tags over the collected fields. */
  function ColumnTotal(fields: map<string, string>, tags: seq<string>): real
    decreases |tags|
  {
    if tags == [] then 0.0
    else
      ColumnTotal(fields, tags[..|tags| - 1])
        + SafeSumValues(if tags[|tags| - 1] in fields then Some(fields[tags[|tags| - 1]]) else None)
  }

  /** The columns of `columns` whose totals are nonzero, with their totals, in order. */
  function SeveranceFrom(fields: map<string, string>, columns: seq<(string, seq<string>)>): (r: seq<(string, real)>)
    ensures |r| <= |columns|
    ensures forall k :: 0 <= k < |r| ==> r[k].1 != 0.0
    ensures forall k :: 0 <= k < |r| ==> exists j :: 0 <= j < |columns| && r[k] == (columns[j].0, ColumnTotal(fields, columns[j].1))
    ensures forall j :: 0 <= j < |columns| && ColumnTotal(fields, columns[j].1) != 0.0
              ==> (columns[j].0, ColumnTotal(fields, columns[j].1)) in r
    decreases |columns|
  {
    if columns == [] then []
    else
      var init := columns[..|columns| - 1];
      var last := columns[|columns| - 1];
      var rest := SeveranceFrom(fields, init);
      var total := ColumnTotal(fields, last.1);
      assert forall k :: 0 <= k < |rest| ==> exists j :: 0 <= j < |columns| && rest[k] == (columns[j].0, ColumnTotal(fields, columns[j].1)) by {
        forall k | 0 <= k < |rest|
          ensures exists j :: 0 <= j < |columns| && rest[k] == (columns[j].0, ColumnTotal(fields, columns[j].1))
        {
          var j :| 0 <= j < |init| && rest[k] == (init[j].0, ColumnTotal(fields, init[j].1));
          assert init[j] == columns[j];
        }
      }
      var r := rest + (if total != 0.0 then [(last.0, total)] else []);
      assert forall j :: 0 <= j < |columns| && ColumnTotal(fields, columns[j].1) != 0.0
               ==> (columns[j].0, ColumnTotal(fields, columns[j].1)) in r by {
        forall j | 0 <= j < |columns| && ColumnTotal(fields, columns[j].1) != 0.0
          ensures (columns[j].0, ColumnTotal(fields, columns[j].1)) in r
        {
          if j < |init| {
            assert init[j] == columns[j];
            assert (init[j].0, ColumnTotal(fields, init[j].1)) in rest;
          }
        }
      }
      r
  }

  /** With no collected fields every column sums to zero, so the early return changes nothing. */
  lemma {:induction false} SeveranceOfNoFields(columns: seq<(string, seq<string>)>)
    ensures SeveranceFrom(map[], columns) == []
    decreases |columns|
  {
    if columns != [] {
      SeveranceOfNoFields(columns[..|columns| - 1]);
      ColumnTotalOfNoFields(columns[|columns| - 1].1);
    }
  }

  lemma {:induction false} ColumnTotalOfNoFields(tags: seq<string>)
    ensures ColumnTotal(map[], tags) == 0.0
    decreases |tags|
  {
    if tags != [] {
      ColumnTotalOfNoFields(tags[..|tags| - 1]);
    }
  }

  /** The inner loop of `_extract_severance_components`: one column's total. */
  method SumColumn(fields: map<string, string>, tags: seq<string>) returns (total: real)
    ensures total == ColumnTotal(fields, tags)
  {
    total := 0.0;
    for j := 0 to |tags|
      invariant total == ColumnTotal(fields, tags[..j])
    {
      assert tags[..j + 1][..j] == tags[..j];
      var raw := if tags[j] in fields then Some(fields[tags[j]]) else None;
      total := total + SafeSumValues(raw);
    }
    assert tags[..|tags|] == tags;
  }

  /** `_extract_severance_components`: one total per column, kept when nonzero. */
  method ExtractSeveranceComponents(fields: map<string, string>) returns (components: seq<(string, real)>)
    ensures components == Severance(fields)
  {
    components := [];
    if |fields| == 0 {
      return;
    }
    components := SumEachColumn(fields, SeveranceColumnTags);
  }

  /** The column loop of `_extract_severance_components`: each column's total, kept when nonzero. */
  method SumEachColumn(fields: map<string, string>, columns: seq<(string, seq<string>)>) returns (components: seq<(string, real)>)
    ensures components == SeveranceFrom(fields, columns)
  {
    components := [];
    for c := 0 to |columns|
      invariant components == SeveranceFrom(fields, columns[..c])
    {
      assert columns[..c + 1][..c] == columns[..c];
      var total := SumColumn(fields, columns[c].1);
      if total != 0.0 {
        components := components + [(columns[c].0, total)];
      }
    }
    assert columns[..|columns|] == columns;
  }
}
