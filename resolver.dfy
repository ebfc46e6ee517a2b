/**
 * Field resolution over an element: direct-child text, first-descendant text,
 * numeric fields, "first of these tags" chains, and the tag-value collector
 * that searches below an element and, optionally, below each of its ancestors.
 */
module FieldResolver {
  import opened Wrappers
  import opened Seqs
  import opened Text
  import opened Numeric
  import opened Document

  /**
   * `_get_text(elem, tag, default)`: the stripped text of the first child
   * with that tag, or `default` when there is no such child or its text is empty.
   */
  function GetText(d: Doc, i: nat, tag: string, default: string): (r: string)
    ensures FindChild(d, i, tag).None? ==> r == default
    ensures FindChild(d, i, tag).Some? && TextOf(d, FindChild(d, i, tag).value) == "" ==> r == default
    ensures FindChild(d, i, tag).Some? && TextOf(d, FindChild(d, i, tag).value) != "" ==>
              r == Strip(TextOf(d, FindChild(d, i, tag).value))
  {
    match FindChild(d, i, tag)
    case Some(c) => if TextOf(d, c) != "" then Strip(TextOf(d, c)) else default
    case None => default
  }

  /** `_find_text_anywhere(elem, tag)`: the stripped text of the first descendant with that tag, or "". */
  function FindTextAnywhere(d: Doc, i: nat, tag: string): (r: string)
    ensures FindFirst(d, i, tag).None? ==> r == ""
    ensures FindFirst(d, i, tag).Some? ==> r == Strip(TextOf(d, FindFirst(d, i, tag).value))
  {
    match FindFirst(d, i, tag)
    case Some(n) => if TextOf(d, n) != "" then Strip(TextOf(d, n)) else ""
    case None => ""
  }

  /**
   * `_get_float(elem, tag)`: the child's text with thousands separators
   * removed, read as a number; None when the text is missing or not numeric.
   */
  function GetFloat(d: Doc, i: nat, tag: string): (r: Option<real>)
    ensures GetText(d, i, tag, "") != "" ==> r == ParseAmount(GetText(d, i, tag, ""))
    ensures GetText(d, i, tag, "") == "" ==> r.None?
  {
    var text := GetText(d, i, tag, "");
    if text != "" then ParseAmount(text) else None
  }

  /** The first non-empty string of `xs`, or "" when all are empty. */
  function FirstNonEmpty(xs: seq<string>): (r: string)
    ensures r == "" <==> forall k :: 0 <= k < |xs| ==> xs[k] == ""
    ensures r != "" ==> exists k :: 0 <= k < |xs| && r == xs[k] && forall j :: 0 <= j < k ==> xs[j] == ""
    decreases |xs|
  {
    if xs == [] then ""
    else if xs[0] != "" then xs[0]
    else
      var rest := FirstNonEmpty(xs[1..]);
      assert rest != "" ==> exists k :: 0 <= k < |xs| && rest == xs[k] && forall j :: 0 <= j < k ==> xs[j] == "" by {
        if rest != "" {
          var k :| 0 <= k < |xs[1..]| && rest == xs[1..][k] && forall j :: 0 <= j < k ==> xs[1..][j] == "";
          assert forall j :: 0 <= j < k + 1 ==> xs[j] == "" by {
            forall j | 0 <= j < k + 1 ensures xs[j] == "" {
              if j > 0 { assert xs[j] == xs[1..][j - 1]; }
            }
          }
        }
      }
      rest
  }

  /** The direct-child texts of `i` for each tag of `tags`, in order. */
  function ChildTexts(d: Doc, i: nat, tags: seq<string>): (r: seq<string>)
    ensures |r| == |tags|
    ensures forall k :: 0 <= k < |tags| ==> r[k] == GetText(d, i, tags[k], "")
  {
    seq(|tags|, k requires 0 <= k < |tags| => GetText(d, i, tags[k], ""))
  }

  /**
   * `_get_text(e, t1) or _get_text(e, t2) or ...`: the first non-empty
   * direct-child text among `tags`, or "" when all are empty.
   */
  function FirstText(d: Doc, i: nat, tags: seq<string>): string {
    FirstNonEmpty(ChildTexts(d, i, tags))
  }

  /** A direct-child text is already stripped. */
  lemma FirstTextStripped(d: Doc, i: nat, tags: seq<string>)
    ensures Strip(FirstText(d, i, tags)) == FirstText(d, i, tags)
  {
    var texts := ChildTexts(d, i, tags);
    var r := FirstNonEmpty(texts);
    if r != "" {
      var k :| 0 <= k < |texts| && r == texts[k];
      var c := FindChild(d, i, tags[k]);
      StripIdempotent(TextOf(d, c.value));
    }
  }

  /** The first non-empty string is the one at the first non-empty position. */
  lemma {:induction false} FirstNonEmptyAt(xs: seq<string>, k: nat)
    requires k < |xs| && xs[k] != ""
    requires forall j :: 0 <= j < k ==> xs[j] == ""
    ensures FirstNonEmpty(xs) == xs[k]
    decreases k
  {
    if k > 0 {
      FirstNonEmptyAt(xs[1..], k - 1);
    }
  }

  /**
   * The `for field in fields: value = self._get_text(e, field); if value:
   * return value` loop, run over the texts the fields give.
   */
  method FirstNonEmptyOf(texts: seq<string>) returns (value: string)
    ensures value == FirstNonEmpty(texts)
  {
    for k := 0 to |texts|
      invariant forall j :: 0 <= j < k ==> texts[j] == ""
    {
      value := texts[k];
      if value != "" {
        FirstNonEmptyAt(texts, k);
        return;
      }
    }
    value := "";
  }

  /** Every value is non-empty (that collected values are also stripped is `NonEmptyTextsStripped`). */
  predicate Clean(xs: seq<string>) {
    forall v :: v in xs ==> v != ""
  }

  /** The stripped, non-empty texts of the elements `ids`, in order. */
  function NonEmptyTexts(d: Doc, ids: seq<nat>): (r: seq<string>)
    ensures Clean(r)
    decreases |ids|
  {
    if ids == [] then []
    else
      var last := Strip(TextOf(d, ids[|ids| - 1]));
      NonEmptyTexts(d, ids[..|ids| - 1]) + (if last != "" then [last] else [])
  }

  /** A value is among the texts exactly when some element of `ids` has it as its stripped text. */
  lemma {:induction false} InNonEmptyTexts(d: Doc, ids: seq<nat>, v: string)
    ensures v in NonEmptyTexts(d, ids) <==> v != "" && exists j :: j in ids && Strip(TextOf(d, j)) == v
    decreases |ids|
  {
    if ids != [] {
      var init := ids[..|ids| - 1];
      var last := ids[|ids| - 1];
      assert ids == init + [last];
      InNonEmptyTexts(d, init, v);
      assert forall j :: j in ids <==> j in init || j == last;
    }
  }

  /** The stripped values are left alone by a further strip. */
  lemma {:induction false} NonEmptyTextsStripped(d: Doc, ids: seq<nat>)
    ensures forall v :: v in NonEmptyTexts(d, ids) ==> Strip(v) == v
    decreases |ids|
  {
    if ids != [] {
      NonEmptyTextsStripped(d, ids[..|ids| - 1]);
      StripIdempotent(TextOf(d, ids[|ids| - 1]));
    }
  }

  /** The inner loop of `_collect_tag_values`: keeps each element's non-empty stripped text. */
  method CollectTexts(d: Doc, found: seq<nat>) returns (texts: seq<string>)
    ensures texts == NonEmptyTexts(d, found)
  {
    texts := [];
    for k := 0 to |found|
      invariant texts == NonEmptyTexts(d, found[..k])
    {
      assert found[..k + 1][..k] == found[..k];
      var text := TextOf(d, found[k]);
      if text != "" && Strip(text) != "" {
        texts := texts + [Strip(text)];
      }
    }
    assert found[..|found|] == found;
  }

  /** The values found below each element of `chain` in turn: the collector's raw list. */
  function ChainValues(d: Doc, chain: seq<nat>, tag: string): (r: seq<string>)
    ensures Clean(r)
    decreases |chain|
  {
    if chain == [] then []
    else ChainValues(d, chain[..|chain| - 1], tag) + NonEmptyTexts(d, FindAll(d, chain[|chain| - 1], tag))
  }

  /** A raw value comes from the search below some element of the chain. */
  lemma {:induction false} InChainValues(d: Doc, chain: seq<nat>, tag: string, v: string)
    ensures v in ChainValues(d, chain, tag) <==> exists a :: a in chain && v in NonEmptyTexts(d, FindAll(d, a, tag))
    decreases |chain|
  {
    if chain != [] {
      var init := chain[..|chain| - 1];
      assert chain == init + [chain[|chain| - 1]];
      InChainValues(d, init, tag, v);
    }
  }

  /** The elements searched: the start alone, or the start and every element up the parent index. */
  function SearchChain(parent: map<nat, nat>, start: nat, includeParents: bool): (r: seq<nat>)
    ensures |r| > 0 && r[0] == start
  {
    if includeParents then Climb(parent, start, {}) else [start]
  }

  /** `_collect_tag_values(start, tag, include_parents)`, as a value. */
  function TagValues(d: Doc, parent: map<nat, nat>, start: nat, tag: string, includeParents: bool): (r: seq<string>)
    ensures NoDups(r) && Clean(r)
    ensures forall v :: v in r <==> v in ChainValues(d, SearchChain(parent, start, includeParents), tag)
  {
    Dedupe(ChainValues(d, SearchChain(parent, start, includeParents), tag))
  }

  /** What remains to be walked from `current`, given what has been visited. */
  ghost function Remaining(parent: map<nat, nat>, current: Option<nat>, visited: set<nat>, includeParents: bool): seq<nat> {
    match current
    case None => []
    case Some(c) =>
      if includeParents then Climb(parent, c, visited)
      else if c in visited then [] else [c]
  }

  /** One step of the walk: the current element, then (when climbing) what remains from its parent. */
  lemma RemainingStep(parent: map<nat, nat>, node: nat, visited: set<nat>, includeParents: bool)
    requires node !in visited
    ensures Remaining(parent, Some(node), visited, includeParents)
         == [node] + (if includeParents
                      then Remaining(parent, if node in parent then Some(parent[node]) else None, visited + {node}, true)
                      else [])
  {
  }

  /** Nothing remains once the walk has stopped. */
  lemma RemainingDone(parent: map<nat, nat>, current: Option<nat>, visited: set<nat>, includeParents: bool)
    requires !(current.Some? && current.value !in visited)
    ensures Remaining(parent, current, visited, includeParents) == []
  {
  }

  lemma AppendAssociative<T>(a: seq<T>, b: seq<T>, c: seq<T>)
    ensures (a + b) + c == a + (b + c)
  {
  }

  /** The values of a chain are those of its first element followed by those of the rest. */
  lemma ChainValuesCons(d: Doc, a: nat, chain: seq<nat>, tag: string)
    ensures ChainValues(d, [a] + chain, tag) == NonEmptyTexts(d, FindAll(d, a, tag)) + ChainValues(d, chain, tag)
  {
    ChainValuesAppend(d, [a], chain, tag);
    assert ChainValues(d, [a], tag) == NonEmptyTexts(d, FindAll(d, a, tag)) by {
      assert [a][..0] == [];
      assert ChainValues(d, [], tag) == [];
    }
  }

  /**
   * The walk of `_collect_tag_values`: from `start` (and, when asked, up the
   * parent index, never visiting an element twice), the non-empty stripped
   * texts of every descendant with the tag, in the order found.
   */
  method WalkChain(d: Doc, parent: map<nat, nat>, start: nat, tag: string, includeParents: bool)
    returns (raw: seq<string>)
    ensures raw == ChainValues(d, SearchChain(parent, start, includeParents), tag)
  {
    ghost var all := ChainValues(d, SearchChain(parent, start, includeParents), tag);
    raw := [];
    var current: Option<nat> := Some(start);
    var visited: set<nat> := {};
    ghost var rest := Remaining(parent, current, visited, includeParents);
    assert rest == SearchChain(parent, start, includeParents);
    assert raw + ChainValues(d, rest, tag) == all;
    while current.Some? && current.value !in visited
      invariant rest == Remaining(parent, current, visited, includeParents)
      invariant raw + ChainValues(d, rest, tag) == all
      decreases parent.Keys - visited, if current.Some? then 1 else 0
    {
      var node := current.value;
      var next := if node in parent then Some(parent[node]) else None;
      RemainingStep(parent, node, visited, includeParents);
      ghost var tail := if includeParents then Remaining(parent, next, visited + {node}, true) else [];
      ChainValuesCons(d, node, tail, tag);
      var texts := CollectTexts(d, FindAll(d, node, tag));
      assert ChainValues(d, rest, tag) == texts + ChainValues(d, tail, tag);
      AppendAssociative(raw, texts, ChainValues(d, tail, tag));
      visited := visited + {node};
      raw := raw + texts;
      rest := tail;
      if !includeParents {
        break;
      }
      current := next;
    }
    RemainingDone(parent, current, visited, includeParents);
  }

  /**
   * `_collect_tag_values`: the values the walk finds, deduplicated keeping
   * the first occurrence.
   */
  method CollectTagValues(d: Doc, parent: map<nat, nat>, start: nat, tag: string, includeParents: bool)
    returns (values: seq<string>)
    ensures values == TagValues(d, parent, start, tag, includeParents)
  {
    var raw := WalkChain(d, parent, start, tag, includeParents);
    values := DedupeInOrder(raw);
  }

  /** Raw values of a concatenated chain are the concatenation of the raw values. */
  lemma {:induction false} ChainValuesAppend(d: Doc, a: seq<nat>, b: seq<nat>, tag: string)
    ensures ChainValues(d, a + b, tag) == ChainValues(d, a, tag) + ChainValues(d, b, tag)
    decreases |b|
  {
    if b == [] {
      assert a + b == a;
    } else {
      assert (a + b)[..|a + b| - 1] == a + b[..|b| - 1];
      ChainValuesAppend(d, a, b[..|b| - 1], tag);
    }
  }

  /**
   * Climbing only appends: the values found below the start element alone
   * come first, in the same order, in the values found when ancestors are
   * searched too.
   */
  lemma TagValuesPrefix(d: Doc, parent: map<nat, nat>, start: nat, tag: string)
    ensures var below := TagValues(d, parent, start, tag, false);
            var all := TagValues(d, parent, start, tag, true);
            |below| <= |all| && all[..|below|] == below
  {
    var chain := Climb(parent, start, {});
    assert chain == [start] + chain[1..];
    ChainValuesAppend(d, [start], chain[1..], tag);
    var xs := ChainValues(d, [start], tag);
    var ys := ChainValues(d, chain[1..], tag);
    DedupeAppend(xs, ys, {});
  }

  /**
   * Without climbing, a value is collected exactly when it is the non-empty
   * stripped text of some descendant of the start element with the tag.
   */
  lemma TagValuesBelow(d: Doc, parent: map<nat, nat>, start: nat, tag: string, v: string)
    ensures v in TagValues(d, parent, start, tag, false)
        <==> v != "" && exists j :: j in FindAll(d, start, tag) && Strip(TextOf(d, j)) == v
  {
    assert ChainValues(d, [start], tag) == NonEmptyTexts(d, FindAll(d, start, tag)) by {
      assert [start][..0] == [];
    }
    InNonEmptyTexts(d, FindAll(d, start, tag), v);
  }

  /** The tags of `tags` whose values are non-empty, each mapped to its values joined with " | ". */
  function JoinedEntries(tags: seq<string>, values: string -> seq<string>): (r: map<string, string>)
    ensures forall t :: t in r <==> t in tags && values(t) != []
    ensures forall t :: t in r ==> r[t] == Join(" | ", values(t))
  {
    map t | t in tags && values(t) != [] :: Join(" | ", values(t))
  }

  /** Taking one more tag adds its entry exactly when it has values. */
  lemma JoinedEntriesSnoc(tags: seq<string>, t: string, values: string -> seq<string>)
    ensures JoinedEntries(tags + [t], values)
         == if values(t) != [] then JoinedEntries(tags, values)[t := Join(" | ", values(t))] else JoinedEntries(tags, values)
  {
  }

  /** `_collect_specific_tags`, as a value: each tag that yielded values, mapped to them joined with " | ". */
  function SpecificTags(d: Doc, parent: map<nat, nat>, start: nat, tags: seq<string>, includeParents: bool): map<string, string> {
    JoinedEntries(tags, t => TagValues(d, parent, start, t, includeParents))
  }

  /** `_collect_specific_tags`: one collector call per tag, keeping the tags that yielded values. */
  method CollectSpecificTags(d: Doc, parent: map<nat, nat>, start: nat, tags: seq<string>, includeParents: bool)
    returns (collected: map<string, string>)
    ensures collected == SpecificTags(d, parent, start, tags, includeParents)
  {
    var valuesOf := t => TagValues(d, parent, start, t, includeParents);
    collected := map[];
    for k := 0 to |tags|
      invariant collected == JoinedEntries(tags[..k], valuesOf)
    {
      assert tags[..k + 1] == tags[..k] + [tags[k]];
      JoinedEntriesSnoc(tags[..k], tags[k], valuesOf);
      var values := CollectTagValues(d, parent, start, tags[k], includeParents);
      assert values == valuesOf(tags[k]);
      if values != [] {
        collected := collected[tags[k] := Join(" | ", values)];
      }
    }
    assert tags[..|tags|] == tags;
  }

  /** The values of each tag in turn, concatenated. */
  function ConcatValues(tags: seq<string>, values: string -> seq<string>): (r: seq<string>)
    ensures forall v :: v in r <==> exists t :: t in tags && v in values(t)
    decreases |tags|
  {
    if tags == [] then []
    else
      var init := tags[..|tags| - 1];
      var t := tags[|tags| - 1];
      var r := ConcatValues(init, values) + values(t);
      assert forall x :: x in tags <==> x in init || x == t by {
        assert tags == init + [t];
      }
      r
  }

  /** One more tag appends its values. */
  lemma ConcatValuesStep(tags: seq<string>, values: string -> seq<string>, i: nat)
    requires i < |tags|
    ensures ConcatValues(tags[..i + 1], values) == ConcatValues(tags[..i], values) + values(tags[i])
  {
    assert tags[..i + 1][..i] == tags[..i];
  }
}
