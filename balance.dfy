/**
 * The best-estimate balance of an account (`_find_balance`): three summed
 * tiers of per-track rows, then the first positive generic balance field,
 * then the largest weighted numeric text anywhere under the account.
 */
module Balance {
  import opened Wrappers
  import opened Text
  import opened Numeric
  import opened Document
  import opened FieldResolver
  import opened Tables

  /** The value of the first candidate field that parses (the inner loop of `_sum_fields`). */
  function FirstFloat(values: seq<Option<real>>): (r: Option<real>)
    ensures r.None? <==> forall k :: 0 <= k < |values| ==> values[k].None?
    ensures r.Some? ==> exists k :: 0 <= k < |values| && values[k] == r && forall j :: 0 <= j < k ==> values[j].None?
    decreases |values|
  {
    if values == [] then None
    else if values[0].Some? then values[0]
    else
      var r := FirstFloat(values[1..]);
      assert forall k :: 0 <= k < |values| - 1 ==> values[1..][k] == values[k + 1];
      r
  }

  /** The first value found is the one at the first index that has one. */
  lemma {:induction false} FirstFloatAt(values: seq<Option<real>>, k: nat)
    requires k < |values| && values[k].Some?
    requires forall j :: 0 <= j < k ==> values[j].None?
    ensures FirstFloat(values) == values[k]
    decreases k
  {
    if k > 0 {
      FirstFloatAt(values[1..], k - 1);
    }
  }

  /** `_get_float(node, field)` for each candidate field, in order. */
  function FieldValues(d: Doc, node: nat, fields: seq<string>): (r: seq<Option<real>>)
    ensures |r| == |fields|
  {
    seq(|fields|, k requires 0 <= k < |fields| => GetFloat(d, node, fields[k]))
  }

  /** The total and the count of the values present. */
  function SumPresent(values: seq<Option<real>>): (r: (real, nat))
    ensures r.1 <= |values|
    ensures r.1 == 0 <==> forall k :: 0 <= k < |values| ==> values[k].None?
    decreases |values|
  {
    if values == [] then (0.0, 0)
    else
      var init := values[..|values| - 1];
      var prev := SumPresent(init);
      assert forall k :: 0 <= k < |init| ==> init[k] == values[k];
      match values[|values| - 1]
      case Some(v) => (prev.0 + v, prev.1 + 1)
      case None => prev
  }

  /** Totals and counts add up over concatenated rows. */
  lemma {:induction false} SumPresentAppend(a: seq<Option<real>>, b: seq<Option<real>>)
    ensures SumPresent(a + b).0 == SumPresent(a).0 + SumPresent(b).0
    ensures SumPresent(a + b).1 == SumPresent(a).1 + SumPresent(b).1
    decreases |b|
  {
    if b == [] {
      assert a + b == a;
    } else {
      var init := b[..|b| - 1];
      assert (a + b)[..|a + b| - 1] == a + init;
      SumPresentAppend(a, init);
    }
  }

  /** `_get_float(node, field)` for each matched node and each candidate field. */
  function FieldGrid(d: Doc, nodes: seq<nat>, fields: seq<string>): (r: seq<seq<Option<real>>>)
    ensures |r| == |nodes|
  {
    seq(|nodes|, k requires 0 <= k < |nodes| => FieldValues(d, nodes[k], fields))
  }

  /** The first parsed candidate of each matched node. */
  function FirstValues(grid: seq<seq<Option<real>>>): (r: seq<Option<real>>)
    ensures |r| == |grid|
    ensures forall k :: 0 <= k < |grid| ==> r[k] == FirstFloat(grid[k])
  {
    seq(|grid|, k requires 0 <= k < |grid| => FirstFloat(grid[k]))
  }

  /** `_sum_fields`: the total and the number of matched nodes where some candidate field parsed. */
  function SumFields(d: Doc, base: nat, steps: seq<string>, fields: seq<string>): (real, nat) {
    SumPresent(FirstValues(FieldGrid(d, Select(d, [base], steps), fields)))
  }

  /**
   * What one summed tier decides: its total when above the tolerance, zero
   * when within it, and nothing (fall through to the next tier) when no node
   * had a value or the total is negative beyond the tolerance.
   */
  function TierOutcome(sum: (real, nat)): (r: Option<real>)
    ensures r.None? <==> sum.1 == 0 || sum.0 < -BalanceTolerance
    ensures r.Some? ==> r.value >= 0.0
    ensures r.Some? && r.value != 0.0 ==> r.value == sum.0 && sum.0 > BalanceTolerance
    ensures r == Some(0.0) <==> sum.1 > 0 && -BalanceTolerance <= sum.0 <= BalanceTolerance
  {
    if sum.1 == 0 then None
    else if sum.0 > BalanceTolerance then Some(sum.0)
    else if -BalanceTolerance <= sum.0 <= BalanceTolerance then Some(0.0)
    else None
  }

  const YitrotSteps: seq<string> := ["BlockItrot", "PerutYitrot"]
  const YitrotFields: seq<string> := ["TOTAL-CHISACHON-MTZBR", "TOTAL-ERKEI-PIDION"]
  const MaslulSteps: seq<string> := ["PerutMasluleiHashkaa"]
  const MaslulFields: seq<string> := ["SCHUM-TZVIRA-BAMASLUL", "TOTAL-CHISACHON-MTZBR"]
  const EndYearSteps: seq<string> := ["PerutYitrotLesofShanaKodemet"]
  const EndYearFields: seq<string> := ["YITRAT-SOF-SHANA", "TOTAL-CHISACHON-MTZBR"]

  /** The balance fields tried one by one directly under the account (tier 4). */
  const GenericFields: seq<string> := [
    "SCHUM-TZVIRA-BAMASLUL",
    "YITRAT-KASPEY-TAGMULIM",
    "TOTAL-CHISACHON-MTZBR",
    "TOTAL-ERKEI-PIDION",
    "SCHUM-HON-EFSHAR",
    "SCHUM-CHISACHON",
    "SCHUM-TAGMULIM",
    "SCHUM-PITURIM",
    "ERECH-PIDION-PITZUIM-LEKITZBA-MAAVIDIM-KODMIM",
    "ERECH-PIDION-PITZUIM-MAASIK-NOCHECHI"
  ]

  /** The first value that is present and positive. */
  function FirstPositive(values: seq<Option<real>>): (r: Option<real>)
    ensures r.None? <==> forall k :: 0 <= k < |values| ==> values[k].None? || values[k].value <= 0.0
    ensures r.Some? ==> r.value > 0.0
    ensures r.Some? ==>
      exists k :: 0 <= k < |values| && values[k] == r && forall j :: 0 <= j < k ==> values[j].None? || values[j].value <= 0.0
    decreases |values|
  {
    if values == [] then None
    else if values[0].Some? && values[0].value > 0.0 then values[0]
    else
      var r := FirstPositive(values[1..]);
      assert forall k :: 0 <= k < |values| - 1 ==> values[1..][k] == values[k + 1];
      r
  }

  /** Tag names that mark a likely balance get weight 2 in the last-resort scan, others 1. */
  function Weight(tag: string): (w: nat)
    ensures w == 2 <==> Contains(Upper(tag), "SCHUM") || Contains(Upper(tag), "YITRAT") || Contains(Upper(tag), "ERECH")
    ensures w == 1 || w == 2
  {
    var t := Upper(tag);
    if Contains(t, "SCHUM") || Contains(t, "YITRAT") || Contains(t, "ERECH") then 2 else 1
  }

  /** What one element offers the last-resort scan: its weight and positive value, or nothing. */
  function Candidate(d: Doc, n: nat): (r: Option<(nat, real)>)
    ensures r.Some? ==> HasDigit(TextOf(d, n)) && ParseAmount(TextOf(d, n)) == Some(r.value.1)
    ensures r.Some? ==> r.value.1 > 0.0 && r.value.0 == Weight(Tag(d, n))
    ensures (HasDigit(TextOf(d, n)) && ParseAmount(TextOf(d, n)).Some? && ParseAmount(TextOf(d, n)).value > 0.0)
              ==> r == Some((Weight(Tag(d, n)), ParseAmount(TextOf(d, n)).value))
  {
    var text := TextOf(d, n);
    if !HasDigit(text) then None
    else
      match ParseAmount(text)
      case Some(v) => if v > 0.0 then Some((Weight(Tag(d, n)), v)) else None
      case None => None
  }

  /** `potential_balances`: the candidates of `ids`, in document order. */
  function Candidates(d: Doc, ids: seq<nat>): (r: seq<(nat, real)>)
    ensures forall k :: 0 <= k < |r| ==> r[k].1 > 0.0
    decreases |ids|
  {
    if ids == [] then []
    else
      var prev := Candidates(d, ids[..|ids| - 1]);
      var c := Candidate(d, ids[|ids| - 1]);
      if c.Some? then prev + [c.value] else prev
  }

  /** A pair is a candidate exactly when some element of `ids` offers it. */
  lemma {:induction false} CandidatesMembership(d: Doc, ids: seq<nat>, p: (nat, real))
    ensures p in Candidates(d, ids) <==> exists k :: 0 <= k < |ids| && Candidate(d, ids[k]) == Some(p)
    decreases |ids|
  {
    if ids != [] {
      var init := ids[..|ids| - 1];
      var c := Candidate(d, ids[|ids| - 1]);
      CandidatesMembership(d, init, p);
      assert p in Candidates(d, ids) <==> p in Candidates(d, init) || c == Some(p);
      if p in Candidates(d, init) {
        var k :| 0 <= k < |init| && Candidate(d, init[k]) == Some(p);
        assert ids[k] == init[k];
      } else if c == Some(p) {
        assert Candidate(d, ids[|ids| - 1]) == Some(p);
      } else {
        forall k | 0 <= k < |ids| ensures Candidate(d, ids[k]) != Some(p) {
          if k < |init| {
            assert ids[k] == init[k];
            assert Candidate(d, init[k]) != Some(p);
          } else {
            assert k == |ids| - 1;
          }
        }
      }
    }
  }

  /**
   * The scan works element by element, so the candidates keep document
   * order; with the one-element case (its candidate, if it has one) this
   * fixes the list.
   */
  lemma {:induction false} CandidatesAppend(d: Doc, a: seq<nat>, b: seq<nat>)
    ensures Candidates(d, a + b) == Candidates(d, a) + Candidates(d, b)
    decreases |b|
  {
    if b == [] {
      assert a + b == a;
    } else {
      var init := b[..|b| - 1];
      assert (a + b)[..|a + b| - 1] == a + init;
      assert (a + b)[|a + b| - 1] == b[|b| - 1];
      CandidatesAppend(d, a, init);
    }
  }

  /** The candidate list grows by the candidate of the next element, if it has one. */
  lemma CandidatesStep(d: Doc, ids: seq<nat>, k: nat)
    requires k < |ids|
    ensures Candidates(d, ids[..k + 1])
        == Candidates(d, ids[..k]) + (if Candidate(d, ids[k]).Some? then [Candidate(d, ids[k]).value] else [])
  {
    assert ids[..k + 1][..k] == ids[..k];
  }

  /** The order of `sort(key=lambda x: (-x[0], -x[1]))`: a larger weight first, then a larger value. */
  predicate Ahead(a: (nat, real), b: (nat, real)) {
    a.0 > b.0 || (a.0 == b.0 && a.1 > b.1)
  }

  /**
   * The first element after sorting, which is the largest under that order
   * (pairs tied on both keys have the same value, so stability does not matter).
   */
  function Top(ps: seq<(nat, real)>): (r: (nat, real))
    requires |ps| > 0
    ensures r in ps
    ensures forall p :: p in ps ==> !Ahead(p, r)
    decreases |ps|
  {
    if |ps| == 1 then ps[0]
    else
      var init := ps[..|ps| - 1];
      var prev := Top(init);
      var last := ps[|ps| - 1];
      assert ps == init + [last];
      if Ahead(last, prev) then last else prev
  }

  /** Tier 5: the value of the top candidate, or 0 when there is none. */
  function LastResort(ps: seq<(nat, real)>): (r: real)
    ensures ps == [] ==> r == 0.0
    ensures ps != [] ==> exists p :: p in ps && p.1 == r && forall q :: q in ps ==> !Ahead(q, p)
  {
    if ps == [] then 0.0 else Top(ps).1
  }

  /** The tiers in order; the first that decides gives the balance. */
  function ChooseBalance(t1: (real, nat), t2: (real, nat), t3: (real, nat), generic: seq<Option<real>>, candidates: seq<(nat, real)>): (r: real)
    ensures TierOutcome(t1).Some? ==> r == TierOutcome(t1).value
    ensures TierOutcome(t1).None? && TierOutcome(t2).Some? ==> r == TierOutcome(t2).value
    ensures TierOutcome(t1).None? && TierOutcome(t2).None? && TierOutcome(t3).Some? ==> r == TierOutcome(t3).value
    ensures (TierOutcome(t1).None? && TierOutcome(t2).None? && TierOutcome(t3).None? && FirstPositive(generic).Some?)
              ==> r == FirstPositive(generic).value
    ensures (TierOutcome(t1).None? && TierOutcome(t2).None? && TierOutcome(t3).None? && FirstPositive(generic).None?)
              ==> r == LastResort(candidates)
  {
    if TierOutcome(t1).Some? then TierOutcome(t1).value
    else if TierOutcome(t2).Some? then TierOutcome(t2).value
    else if TierOutcome(t3).Some? then TierOutcome(t3).value
    else if FirstPositive(generic).Some? then FirstPositive(generic).value
    else LastResort(candidates)
  }

  /** `_find_balance(account)`. */
  function Balance(d: Doc, account: nat): real {
    ChooseBalance(
      SumFields(d, account, YitrotSteps, YitrotFields),
      SumFields(d, account, MaslulSteps, MaslulFields),
      SumFields(d, account, EndYearSteps, EndYearFields),
      FieldValues(d, account, GenericFields),
      Candidates(d, Iter(d, account)))
  }

  /** Every candidate has a positive value. */
  lemma {:induction false} CandidatesPositive(ps: seq<(nat, real)>, p: (nat, real))
    requires forall k :: 0 <= k < |ps| ==> ps[k].1 > 0.0
    requires p in ps
    ensures p.1 > 0.0
  {
    var k :| 0 <= k < |ps| && ps[k] == p;
  }

  /** The balance is never negative, whichever tier decides. */
  lemma ChooseBalanceNonNegative(t1: (real, nat), t2: (real, nat), t3: (real, nat), generic: seq<Option<real>>, candidates: seq<(nat, real)>)
    requires forall k :: 0 <= k < |candidates| ==> candidates[k].1 > 0.0
    ensures ChooseBalance(t1, t2, t3, generic, candidates) >= 0.0
  {
    if candidates != [] {
      CandidatesPositive(candidates, Top(candidates));
    }
  }

  /**
   * A positive balance is one of: a tier total above the tolerance, a positive
   * generic field, or the top candidate of the scan.
   */
  lemma ChooseBalanceSource(t1: (real, nat), t2: (real, nat), t3: (real, nat), generic: seq<Option<real>>, candidates: seq<(nat, real)>)
    ensures var r := ChooseBalance(t1, t2, t3, generic, candidates);
      r > 0.0 ==>
        (r == t1.0 && t1.1 > 0 && r > BalanceTolerance)
        || (r == t2.0 && t2.1 > 0 && r > BalanceTolerance)
        || (r == t3.0 && t3.1 > 0 && r > BalanceTolerance)
        || Some(r) in generic
        || (candidates != [] && r == Top(candidates).1)
  {
    var r := ChooseBalance(t1, t2, t3, generic, candidates);
    if TierOutcome(t1).None? && TierOutcome(t2).None? && TierOutcome(t3).None? && FirstPositive(generic).Some? {
      var k :| 0 <= k < |generic| && generic[k] == FirstPositive(generic);
      assert Some(r) == generic[k];
    }
  }

  /** Tier 4 and the scan are reached only when every summed tier had no rows or a total below minus the tolerance. */
  lemma ChooseBalanceFallsThrough(t1: (real, nat), t2: (real, nat), t3: (real, nat), generic: seq<Option<real>>, candidates: seq<(nat, real)>)
    requires t1.1 == 0 || t1.0 < -BalanceTolerance
    requires t2.1 == 0 || t2.0 < -BalanceTolerance
    requires t3.1 == 0 || t3.0 < -BalanceTolerance
    requires forall k :: 0 <= k < |generic| ==> generic[k].None? || generic[k].value <= 0.0
    ensures ChooseBalance(t1, t2, t3, generic, candidates) == LastResort(candidates)
  {
  }

  /** `_sum_fields`' inner loop over the parsed candidate fields of one node: the first that parsed. */
  method FirstFieldValue(values: seq<Option<real>>) returns (value: Option<real>)
    ensures value == FirstFloat(values)
  {
    value := None;
    var k := 0;
    while k < |values|
      invariant 0 <= k <= |values|
      invariant value.None?
      invariant forall j :: 0 <= j < k ==> values[j].None?
    {
      value := values[k];
      if value.Some? {
        FirstFloatAt(values, k);
        return;
      }
      k := k + 1;
    }
  }

  /** `_sum_fields`' outer loop: add up the first value of each node that has one. */
  method SumNodes(grid: seq<seq<Option<real>>>) returns (total: real, count: nat)
    ensures (total, count) == SumPresent(FirstValues(grid))
  {
    ghost var values := FirstValues(grid);
    total, count := 0.0, 0;
    for k := 0 to |grid|
      invariant (total, count) == SumPresent(values[..k])
    {
      var value := FirstFieldValue(grid[k]);
      assert values[..k + 1][..k] == values[..k];
      if value.Some? {
        total := total + value.value;
        count := count + 1;
      }
    }
    assert values[..|grid|] == values;
  }

  /** `_sum_fields(base, xpath, fields)`. */
  method SumFieldsOf(d: Doc, base: nat, steps: seq<string>, fields: seq<string>) returns (total: real, count: nat)
    ensures (total, count) == SumFields(d, base, steps, fields)
  {
    var nodes := Select(d, [base], steps);
    total, count := SumNodes(FieldGrid(d, nodes, fields));
  }

  lemma BalanceNonNegative(d: Doc, account: nat)
    ensures Balance(d, account) >= 0.0
  {
    ChooseBalanceNonNegative(
      SumFields(d, account, YitrotSteps, YitrotFields),
      SumFields(d, account, MaslulSteps, MaslulFields),
      SumFields(d, account, EndYearSteps, EndYearFields),
      FieldValues(d, account, GenericFields),
      Candidates(d, Iter(d, account)));
  }

  /** Tier 4's loop: the first generic field value that is positive. */
  method FirstPositiveOf(values: seq<Option<real>>) returns (found: Option<real>)
    ensures found == FirstPositive(values)
  {
    for k := 0 to |values|
      invariant forall j :: 0 <= j < k ==> values[j].None? || values[j].value <= 0.0
    {
      if values[k].Some? && values[k].value > 0.0 {
        FirstPositiveAt(values, k);
        return values[k];
      }
    }
    return None;
  }

  /** The last-resort scan over every element under the account. */
  method ScanCandidates(d: Doc, ids: seq<nat>) returns (potential: seq<(nat, real)>)
    ensures potential == Candidates(d, ids)
  {
    potential := [];
    for k := 0 to |ids|
      invariant potential == Candidates(d, ids[..k])
    {
      var n := ids[k];
      CandidatesStep(d, ids, k);
      var text := TextOf(d, n);
      if HasDigit(text) {
        var value := ParseAmount(text);
        if value.Some? && value.value > 0.0 {
          potential := potential + [(Weight(Tag(d, n)), value.value)];
        }
      }
    }
    assert ids[..|ids|] == ids;
  }

  /** `_find_balance(account)`. */
  method FindBalance(d: Doc, account: nat) returns (balance: real)
    ensures balance == Balance(d, account)
    ensures balance >= 0.0
  {
    BalanceNonNegative(d, account);
    var yitrotTotal, yitrotCount := SumFieldsOf(d, account, YitrotSteps, YitrotFields);
    if yitrotCount > 0 {
      if yitrotTotal > BalanceTolerance {
        return yitrotTotal;
      }
      if -BalanceTolerance <= yitrotTotal <= BalanceTolerance {
        return 0.0;
      }
    }
    var maslulTotal, maslulCount := SumFieldsOf(d, account, MaslulSteps, MaslulFields);
    if maslulCount > 0 {
      if maslulTotal > BalanceTolerance {
        return maslulTotal;
      }
      if -BalanceTolerance <= maslulTotal <= BalanceTolerance {
        return 0.0;
      }
    }
    var endYearTotal, endYearCount := SumFieldsOf(d, account, EndYearSteps, EndYearFields);
    if endYearCount > 0 {
      if endYearTotal > BalanceTolerance {
        return endYearTotal;
      }
      if -BalanceTolerance <= endYearTotal <= BalanceTolerance {
        return 0.0;
      }
    }
    var generic := FirstPositiveOf(FieldValues(d, account, GenericFields));
    if generic.Some? {
      return generic.value;
    }
    var potential := ScanCandidates(d, Iter(d, account));
    if potential != [] {
      balance := Top(potential).1;
    } else {
      balance := 0.0;
    }
  }

  /** The first positive value is the one at the first index that has one. */
  lemma {:induction false} FirstPositiveAt(values: seq<Option<real>>, k: nat)
    requires k < |values| && values[k].Some? && values[k].value > 0.0
    requires forall j :: 0 <= j < k ==> values[j].None? || values[j].value <= 0.0
    ensures FirstPositive(values) == values[k]
    decreases k
  {
    if k > 0 {
      FirstPositiveAt(values[1..], k - 1);
    }
  }
}
