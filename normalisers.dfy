/**
 * The small per-account normalisers: date formatting, the managing company's
 * name and code, the plan type, the balance and start dates, and the
 * employer names.
 */
module Normalisers {
  import opened Wrappers
  import opened Seqs
  import opened Text
  import opened Numeric
  import opened Document
  import opened FieldResolver
  import opened Tables

  /** The reformatting `_format_date` applies to an already trimmed value. */
  function FormatTrimmed(v: string): (r: string)
    ensures !IsDigits(v) || (|v| != 8 && |v| != 6) ==> r == v
    ensures IsDigits(v) && |v| == 8 ==> |r| == 10 && r[4] == '-' && r[7] == '-'
    ensures IsDigits(v) && |v| == 6 ==> |r| == 7 && r[4] == '-'
    ensures |r| > 0 ==> |v| > 0 && r[0] == v[0] && r[|r| - 1] == v[|v| - 1]
  {
    if IsDigits(v) && |v| == 8 then v[..4] + "-" + v[4..6] + "-" + v[6..]
    else if IsDigits(v) && |v| == 6 then v[..4] + "-" + v[4..6]
    else v
  }

  /**
   * `_format_date`: an all-digit YYYYMMDD becomes YYYY-MM-DD and an all-digit
   * YYYYMM becomes YYYY-MM; anything else comes back trimmed.
   */
  function FormatDate(value: string): (r: string)
    ensures value == "" ==> r == ""
  {
    if value == "" then "" else FormatTrimmed(Strip(value))
  }

  /** Formatting only inserts dashes: removing them gives back the digits. */
  lemma FormatKeepsDigits(v: string)
    requires IsDigits(v)
    ensures RemoveChar(FormatTrimmed(v), '-') == v
  {
    if |v| == 8 {
      DayDashesRemoved(v);
    } else if |v| == 6 {
      MonthDashRemoved(v);
    } else {
      DashFree(v, 0, |v|);
      assert v[0..|v|] == v;
    }
  }

  lemma DayDashesRemoved(v: string)
    requires IsDigits(v) && |v| == 8
    ensures RemoveChar(v[..4] + "-" + v[4..6] + "-" + v[6..], '-') == v
  {
    var y, m, day := v[..4], v[4..6], v[6..];
    assert RemoveChar("-", '-') == [];
    DashFree(v, 0, 4);
    DashFree(v, 4, 6);
    DashFree(v, 6, 8);
    assert v[6..8] == day;
    RemoveCharAppend(y + "-" + m + "-", day, '-');
    RemoveCharAppend(y + "-" + m, "-", '-');
    RemoveCharAppend(y + "-", m, '-');
    RemoveCharAppend(y, "-", '-');
    assert y + m + day == v;
  }

  lemma MonthDashRemoved(v: string)
    requires IsDigits(v) && |v| == 6
    ensures RemoveChar(v[..4] + "-" + v[4..6], '-') == v
  {
    var y, m := v[..4], v[4..6];
    assert RemoveChar("-", '-') == [];
    DashFree(v, 0, 4);
    DashFree(v, 4, 6);
    RemoveCharAppend(y + "-", m, '-');
    RemoveCharAppend(y, "-", '-');
    assert y + m == v;
  }

  /** A reformatted date is no longer all digits, so reformatting it changes nothing. */
  lemma FormatTrimmedIdempotent(v: string)
    ensures FormatTrimmed(FormatTrimmed(v)) == FormatTrimmed(v)
  {
    var r := FormatTrimmed(v);
    if IsDigits(v) && (|v| == 8 || |v| == 6) {
      assert !IsDigit(r[4]);
    }
  }

  /** A slice of a digit string has no dash, so removing dashes leaves it alone. */
  lemma DashFree(v: string, i: nat, j: nat)
    requires IsDigits(v) && i <= j <= |v|
    ensures RemoveChar(v[i..j], '-') == v[i..j]
  {
    assert forall k :: 0 <= k < j - i ==> v[i..j][k] == v[i + k];
    assert '-' !in v[i..j];
  }

  /** Formatting a formatted date changes nothing. */
  lemma FormatDateIdempotent(value: string)
    ensures FormatDate(FormatDate(value)) == FormatDate(value)
  {
    if value != "" {
      var v := Strip(value);
      var r := FormatTrimmed(v);
      if r != "" {
        assert Strip(r) == r by {
          if IsDigits(v) && (|v| == 8 || |v| == 6) {
            DigitNotSpace(v[0]);
            DigitNotSpace(v[|v| - 1]);
            StripCharsOfStripped(r, Whitespace);
          } else {
            StripIdempotent(value);
          }
        }
        FormatTrimmedIdempotent(v);
      }
    }
  }

  lemma DigitNotSpace(c: char)
    requires IsDigit(c)
    ensures c !in Whitespace
  {
  }

  /** Managing-company tags that hold a code rather than a name. */
  predicate IsCodeTag(tag: string) {
    StartsWith(tag, "KOD") || Contains(Upper(tag), "MEZAHE")
  }

  /** The tags of `tags` that are code tags (`codes`) or name tags (`!codes`), in order. */
  function SplitTags(tags: seq<string>, codes: bool): (r: seq<string>)
    ensures forall t :: t in r <==> t in tags && IsCodeTag(t) == codes
    ensures |r| <= |tags|
    decreases |tags|
  {
    if tags == [] then []
    else
      var init := tags[..|tags| - 1];
      var t := tags[|tags| - 1];
      assert tags == init + [t];
      SplitTags(init, codes) + (if IsCodeTag(t) == codes then [t] else [])
  }

  /**
   * The split works tag by tag, so each part keeps the order of
   * `MANAGING_COMPANY_TAGS`; with the one-tag case (the tag when its kind
   * matches, else nothing) this fixes both parts.
   */
  lemma {:induction false} SplitTagsAppend(a: seq<string>, b: seq<string>, codes: bool)
    ensures SplitTags(a + b, codes) == SplitTags(a, codes) + SplitTags(b, codes)
    decreases |b|
  {
    if b == [] {
      assert a + b == a;
    } else {
      var init := b[..|b| - 1];
      assert (a + b)[..|a + b| - 1] == a + init;
      assert (a + b)[|a + b| - 1] == b[|b| - 1];
      SplitTagsAppend(a, init, codes);
    }
  }

  /**
   * The first value of the first tag that yields any (the `if values:
   * name = values[0]; break` loop), or "" when none does.
   */
  function FirstCollected(tags: seq<string>, values: string -> seq<string>): (r: string)
    ensures (forall k :: 0 <= k < |tags| ==> values(tags[k]) == []) ==> r == ""
    ensures (exists k :: 0 <= k < |tags| && values(tags[k]) != []) ==>
      exists k :: 0 <= k < |tags| && values(tags[k]) != [] && r == values(tags[k])[0] && forall j :: 0 <= j < k ==> values(tags[j]) == []
    decreases |tags|
  {
    if tags == [] then ""
    else if values(tags[0]) != [] then values(tags[0])[0]
    else
      var r := FirstCollected(tags[1..], values);
      assert forall k :: 0 <= k < |tags| - 1 ==> tags[1..][k] == tags[k + 1];
      r
  }

  /** The values of every managing-company tag, collected with ancestors. */
  function CompanyValues(d: Doc, parent: map<nat, nat>, account: nat): string -> seq<string> {
    t => TagValues(d, parent, account, t, true)
  }

  /**
   * `_get_managing_company(account, fallback)`: the first value of a name
   * tag, else the fallback, else "unknown"; the first value of a code tag,
   * else "unknown".
   */
  function ManagingCompany(d: Doc, parent: map<nat, nat>, account: nat, fallback: string): (r: (string, string))
    ensures r.0 != "" && r.1 != ""
    ensures var name := FirstCollected(SplitTags(ManagingCompanyTags, false), CompanyValues(d, parent, account));
      && (name != "" ==> r.0 == name)
      && (name == "" && fallback != "" ==> r.0 == fallback)
      && (name == "" && fallback == "" ==> r.0 == Unknown)
    ensures var code := FirstCollected(SplitTags(ManagingCompanyTags, true), CompanyValues(d, parent, account));
      && (code != "" ==> r.1 == code)
      && (code == "" ==> r.1 == Unknown)
  {
    var name := FirstCollected(SplitTags(ManagingCompanyTags, false), CompanyValues(d, parent, account));
    var code := FirstCollected(SplitTags(ManagingCompanyTags, true), CompanyValues(d, parent, account));
    (if name != "" then name else if fallback != "" then fallback else Unknown,
     if code != "" then code else Unknown)
  }

  /** A non-empty first value is a value collected for one of the tags. */
  lemma FirstCollectedFrom(tags: seq<string>, values: string -> seq<string>)
    ensures var r := FirstCollected(tags, values);
      r == "" || exists t :: t in tags && r in values(t)
  {
    var r := FirstCollected(tags, values);
    if exists k :: 0 <= k < |tags| && values(tags[k]) != [] {
      var k :| 0 <= k < |tags| && values(tags[k]) != [] && r == values(tags[k])[0];
      assert tags[k] in tags && r in values(tags[k]);
    }
  }

  /**
   * The code is never read from a name tag: it is a value collected for a
   * code tag, or "unknown"; the name likewise comes from a name tag, the
   * fallback, or "unknown".
   */
  lemma ManagingCompanySources(d: Doc, parent: map<nat, nat>, account: nat, fallback: string)
    ensures var (name, code) := ManagingCompany(d, parent, account, fallback);
      (code == Unknown || exists t :: t in ManagingCompanyTags && IsCodeTag(t) && code in CompanyValues(d, parent, account)(t))
      && (name == Unknown || name == fallback
          || exists t :: t in ManagingCompanyTags && !IsCodeTag(t) && name in CompanyValues(d, parent, account)(t))
  {
    FirstCollectedFrom(SplitTags(ManagingCompanyTags, false), CompanyValues(d, parent, account));
    FirstCollectedFrom(SplitTags(ManagingCompanyTags, true), CompanyValues(d, parent, account));
  }

  /** The `for tag in tags: values = collect(tag); if values: ... break` loop. */
  method FirstCollectedValue(d: Doc, parent: map<nat, nat>, account: nat, tags: seq<string>) returns (first: string)
    ensures first == FirstCollected(tags, CompanyValues(d, parent, account))
  {
    ghost var valuesOf := CompanyValues(d, parent, account);
    for k := 0 to |tags|
      invariant FirstCollected(tags, valuesOf) == FirstCollected(tags[k..], valuesOf)
    {
      var values := CollectTagValues(d, parent, account, tags[k], true);
      assert values == valuesOf(tags[k]);
      assert tags[k..][0] == tags[k] && tags[k..][1..] == tags[k + 1..];
      if values != [] {
        return values[0];
      }
    }
    return "";
  }

  /** `_get_managing_company(account, fallback)`. */
  method GetManagingCompany(d: Doc, parent: map<nat, nat>, account: nat, fallback: string) returns (name: string, code: string)
    ensures (name, code) == ManagingCompany(d, parent, account, fallback)
  {
    name := FirstCollectedValue(d, parent, account, SplitTags(ManagingCompanyTags, false));
    code := FirstCollectedValue(d, parent, account, SplitTags(ManagingCompanyTags, true));
    if name == "" {
      name := if fallback != "" then fallback else Unknown;
    }
    if code == "" {
      code := Unknown;
    }
  }

  /** The plan type reported for a bare life-insurance indicator. */
  const ManagersInsurance: string := "ביטוח מנהלים"

  /** The date tags `_get_balance_date` reads, in lookup order. */
  const BalanceDateTags: seq<string> := [
    "TAARICH-NECHONUT", "TAARICH-ERECH-TZVIROT", "TAARICH-ERECH", "TAARICH-MADAD", "TAARICH-ERECH-HAFKADA"
  ]

  /** The nested path `.//BlockItrot//TAARICH-ERECH-TZVIROT` of the last-resort balance date. */
  const BalanceBlockDatePath: seq<string> := ["BlockItrot", "TAARICH-ERECH-TZVIROT"]

  const StartDateTag: string := "TAARICH-HITZTARFUT-RISHON"

  /** The plan type implied by a declaration block anywhere below the account, if any. */
  function IndicatorType(d: Doc, account: nat): (r: string)
    ensures r == "" <==> FindFirst(d, account, "HODAAT-LEKULAM").None?
                         && FindFirst(d, account, "HODAAT-LEPENSIA").None?
                         && FindFirst(d, account, "HODAAT-LIBRAT").None?
    ensures r in {"", ProvidentFund, PensionFund, ManagersInsurance}
    ensures FindFirst(d, account, "HODAAT-LEKULAM").Some? ==> r == ProvidentFund
    ensures (FindFirst(d, account, "HODAAT-LEKULAM").None? && FindFirst(d, account, "HODAAT-LEPENSIA").Some?)
              ==> r == PensionFund
    ensures (FindFirst(d, account, "HODAAT-LEKULAM").None? && FindFirst(d, account, "HODAAT-LEPENSIA").None?
             && FindFirst(d, account, "HODAAT-LIBRAT").Some?) ==> r == ManagersInsurance
  {
    if FindFirst(d, account, "HODAAT-LEKULAM").Some? then ProvidentFund
    else if FindFirst(d, account, "HODAAT-LEPENSIA").Some? then PensionFund
    else if FindFirst(d, account, "HODAAT-LIBRAT").Some? then ManagersInsurance
    else ""
  }

  /**
   * `_get_plan_type(account)`: the first non-empty plan-type child, else the
   * type implied by a declaration block, else "unknown". A child text
   * shadows every later one; only when all are empty is the result a fixed
   * label, and "unknown" exactly when no declaration block exists either.
   */
  function PlanType(d: Doc, account: nat): (r: string)
    ensures r != ""
    ensures var texts := ChildTexts(d, account, PlanTypeTags);
      (exists k :: 0 <= k < |texts| && r == texts[k] != "" && forall j :: 0 <= j < k ==> texts[j] == "")
      || ((forall k :: 0 <= k < |texts| ==> texts[k] == "")
         && r in {ProvidentFund, PensionFund, ManagersInsurance, Unknown}
         && (r == Unknown <==> IndicatorType(d, account) == ""))
  {
    var text := FirstText(d, account, PlanTypeTags);
    if text != "" then text
    else
      var implied := IndicatorType(d, account);
      if implied != "" then implied else Unknown
  }

  /** `_get_plan_type(account)`. */
  method GetPlanType(d: Doc, account: nat) returns (planType: string)
    ensures planType == PlanType(d, account)
  {
    planType := FirstNonEmptyOf(ChildTexts(d, account, PlanTypeTags));
    if planType != "" {
      return;
    }
    if FindFirst(d, account, "HODAAT-LEKULAM").Some? {
      return ProvidentFund;
    }
    if FindFirst(d, account, "HODAAT-LEPENSIA").Some? {
      return PensionFund;
    }
    if FindFirst(d, account, "HODAAT-LIBRAT").Some? {
      return ManagersInsurance;
    }
    return Unknown;
  }

  /** The raw text of the first `BlockItrot//TAARICH-ERECH-TZVIROT` element, or "". */
  function BlockDateText(d: Doc, account: nat): (r: string)
    ensures Select(d, [account], BalanceBlockDatePath) == [] ==> r == ""
    ensures Select(d, [account], BalanceBlockDatePath) != [] ==> r == TextOf(d, Select(d, [account], BalanceBlockDatePath)[0])
  {
    var found := Select(d, [account], BalanceBlockDatePath);
    if found == [] then "" else TextOf(d, found[0])
  }

  /**
   * `_get_balance_date(account)`: the first non-empty date child, else the
   * balance block's valuation date, formatted; "" when there is neither.
   */
  function BalanceDate(d: Doc, account: nat): (r: string)
    ensures FirstText(d, account, BalanceDateTags) != "" ==> r != ""
    ensures FirstText(d, account, BalanceDateTags) != "" ==> r == FormatDate(FirstText(d, account, BalanceDateTags))
    ensures (FirstText(d, account, BalanceDateTags) == "" && BlockDateText(d, account) != "")
              ==> r == FormatDate(BlockDateText(d, account))
    ensures FirstText(d, account, BalanceDateTags) == "" && BlockDateText(d, account) == "" ==> r == ""
  {
    var text := FirstText(d, account, BalanceDateTags);
    if text != "" then
      FirstTextStripped(d, account, BalanceDateTags);
      FormatDateNonEmpty(text);
      FormatDate(text)
    else
      var block := BlockDateText(d, account);
      if block != "" then FormatDate(block) else ""
  }

  /** `_get_balance_date(account)`. */
  method GetBalanceDate(d: Doc, account: nat) returns (date: string)
    ensures date == BalanceDate(d, account)
  {
    var text := FirstNonEmptyOf(ChildTexts(d, account, BalanceDateTags));
    if text != "" {
      FirstTextStripped(d, account, BalanceDateTags);
      return FormatDate(text);
    }
    var found := Select(d, [account], BalanceBlockDatePath);
    if found != [] && TextOf(d, found[0]) != "" {
      return FormatDate(TextOf(d, found[0]));
    }
    return "";
  }

  /** `_get_start_date(account)`: the formatted first-joining date, or "". */
  function StartDate(d: Doc, account: nat): (r: string)
    ensures GetText(d, account, StartDateTag, "") == "" ==> r == ""
    ensures GetText(d, account, StartDateTag, "") != "" ==> r == FormatDate(GetText(d, account, StartDateTag, "")) != ""
  {
    var text := GetText(d, account, StartDateTag, "");
    if text != "" then FormatDate(text) else ""
  }

  /** A date in the compact digit form is only punctuated: its digits survive in order. */
  lemma FormatDateKeepsDigits(value: string)
    requires IsDigits(Strip(value))
    ensures RemoveChar(FormatDate(value), '-') == Strip(value)
  {
    FormatKeepsDigits(Strip(value));
  }

  /** A trimmed non-empty value formats to a non-empty date. */
  lemma FormatDateNonEmpty(value: string)
    requires value != "" && Strip(value) == value
    ensures FormatDate(value) != ""
  {
  }

  /** Any other value is only trimmed. */
  lemma FormatDateTrimsOthers(value: string)
    requires !IsDigits(Strip(value)) || (|Strip(value)| != 8 && |Strip(value)| != 6)
    ensures FormatDate(value) == Strip(value)
  {
    if value == "" {
      assert Strip(value) == "";
    }
  }

  /** Both account dates come out already formatted: formatting them again changes nothing. */
  lemma DatesAreFormatted(d: Doc, account: nat)
    ensures FormatDate(BalanceDate(d, account)) == BalanceDate(d, account)
    ensures FormatDate(StartDate(d, account)) == StartDate(d, account)
  {
    var text := FirstText(d, account, BalanceDateTags);
    if text != "" {
      FormatDateIdempotent(text);
    } else {
      FormatDateIdempotent(BlockDateText(d, account));
    }
    FormatDateIdempotent(GetText(d, account, StartDateTag, ""));
  }

  /**
   * One employer value as `_collect_employer_names` cleans it: trimmed, one
   * run of double and then of single quotes removed from each end, the
   * " | " joints of merged values turned into single spaces, trimmed again.
   */
  function CleanName(v: string): string {
    Strip(ReplaceAll(StripChars(StripChars(Strip(v), {'"'}), {'\''}), " | ", " "))
  }

  /** A cleaned name is already trimmed. */
  lemma CleanNameStripped(v: string)
    ensures Strip(CleanName(v)) == CleanName(v)
  {
    StripIdempotent(ReplaceAll(StripChars(StripChars(Strip(v), {'"'}), {'\''}), " | ", " "));
  }

  /** Every value cleaned, in order. */
  function CleanAll(values: seq<string>): (r: seq<string>)
    ensures |r| == |values| && forall k :: 0 <= k < |values| ==> r[k] == CleanName(values[k])
  {
    seq(|values|, k requires 0 <= k < |values| => CleanName(values[k]))
  }

  /** The non-empty strings of `xs`, in order. */
  function Present(xs: seq<string>): (r: seq<string>)
    ensures forall x :: x in r <==> x in xs && x != ""
    decreases |xs|
  {
    if xs == [] then []
    else
      var init, last := xs[..|xs| - 1], xs[|xs| - 1];
      assert xs == init + [last];
      Present(init) + (if last != "" then [last] else [])
  }

  lemma {:induction false} PresentAppend(a: seq<string>, b: seq<string>)
    ensures Present(a + b) == Present(a) + Present(b)
    decreases |b|
  {
    if b == [] {
      assert a + b == a;
    } else {
      var init, last := b[..|b| - 1], b[|b| - 1];
      assert (a + b)[..|a + b| - 1] == a + init;
      assert (a + b)[|a + b| - 1] == last;
      PresentAppend(a, init);
    }
  }

  lemma CleanAllAppend(a: seq<string>, b: seq<string>)
    ensures CleanAll(a + b) == CleanAll(a) + CleanAll(b)
  {
    var l, r := CleanAll(a + b), CleanAll(a) + CleanAll(b);
    assert |l| == |r|;
    forall k | 0 <= k < |l| ensures l[k] == r[k] {
      if k < |a| {
        assert (a + b)[k] == a[k];
      } else {
        assert (a + b)[k] == b[k - |a|];
      }
    }
  }

  /** The values of every employer tag, collected with ancestors. */
  function EmployerValues(d: Doc, parent: map<nat, nat>, account: nat): string -> seq<string> {
    t => TagValues(d, parent, account, t, true)
  }

  /**
   * `_collect_employer_names(account)`: the cleaned, non-empty values of
   * every employer tag, tag by tag, each name kept at its first occurrence.
   */
  function EmployerNames(d: Doc, parent: map<nat, nat>, account: nat): (r: seq<string>)
    ensures NoDups(r)
    ensures forall x :: x in r ==> x != ""
  {
    Dedupe(Present(CleanAll(ConcatValues(EmployerNameTags, EmployerValues(d, parent, account)))))
  }

  /** A kept cleaned value is the cleaned form of some input value. */
  lemma CleanedMembership(all: seq<string>)
    ensures forall x :: x in Present(CleanAll(all)) <==> x != "" && exists v :: v in all && CleanName(v) == x
  {
    var cleaned := CleanAll(all);
    forall x | x in cleaned ensures exists v :: v in all && CleanName(v) == x {
      var k :| 0 <= k < |cleaned| && cleaned[k] == x;
      assert all[k] in all;
    }
    forall x | exists v :: v in all && CleanName(v) == x ensures x in cleaned {
      var v :| v in all && CleanName(v) == x;
      var k :| 0 <= k < |all| && all[k] == v;
      assert cleaned[k] == x;
    }
  }

  /** Every listed name is trimmed. */
  lemma EmployerNamesTrimmed(tags: seq<string>, values: string -> seq<string>)
    ensures forall x :: x in Dedupe(Present(CleanAll(ConcatValues(tags, values)))) ==> Strip(x) == x
  {
    var all := ConcatValues(tags, values);
    var cleaned := CleanAll(all);
    forall x | x in Dedupe(Present(cleaned)) ensures Strip(x) == x {
      var k :| 0 <= k < |cleaned| && cleaned[k] == x;
      CleanNameStripped(all[k]);
    }
  }

  /**
   * A name is listed exactly when it is the non-empty cleaned form of some
   * value of some employer tag.
   */
  lemma EmployerNamesMembership(tags: seq<string>, values: string -> seq<string>)
    ensures var r := Dedupe(Present(CleanAll(ConcatValues(tags, values))));
      forall x :: x in r <==> x != "" && exists t, v :: t in tags && v in values(t) && CleanName(v) == x
  {
    var all := ConcatValues(tags, values);
    var kept := Present(CleanAll(all));
    CleanedMembership(all);
    forall x ensures x in Dedupe(kept) <==> x != "" && exists t, v :: t in tags && v in values(t) && CleanName(v) == x {
      assert x in Dedupe(kept) <==> x in kept;
      if x in kept {
        var v :| v in all && CleanName(v) == x;
        var t :| t in tags && v in values(t);
      }
      if x != "" && exists t, v :: t in tags && v in values(t) && CleanName(v) == x {
        var t, v :| t in tags && v in values(t) && CleanName(v) == x;
        assert v in all;
      }
    }
  }

  /** The set of elements of `xs`. */
  function Elements(xs: seq<string>): set<string> {
    set x | x in xs
  }

  /** One more cleaned value extends the kept names by it when it is non-empty. */
  lemma PresentSnoc(xs: seq<string>, j: nat)
    requires j < |xs|
    ensures Present(xs[..j + 1]) == Present(xs[..j]) + (if xs[j] != "" then [xs[j]] else [])
  {
    assert xs[..j + 1][..j] == xs[..j];
  }

  /** One step of the inner loop: how the kept names and the seen set grow with one more value. */
  lemma AddUnseenStep(cleaned: seq<string>, j: nat, seen: set<string>)
    requires j < |cleaned|
    ensures var kept, name := Present(cleaned[..j]), cleaned[j];
      DedupeFrom(Present(cleaned[..j + 1]), seen)
        == DedupeFrom(kept, seen) + (if name != "" && name !in seen + Elements(kept) then [name] else [])
    ensures var kept, name := Present(cleaned[..j]), cleaned[j];
      Elements(Present(cleaned[..j + 1])) == Elements(kept) + (if name != "" then {name} else {})
  {
    var kept, name := Present(cleaned[..j]), cleaned[j];
    PresentSnoc(cleaned, j);
    if name == "" {
      assert Present(cleaned[..j + 1]) == kept;
    } else {
      DedupeSnoc(kept, name, seen);
      assert Elements(kept + [name]) == Elements(kept) + {name};
    }
  }

  /**
   * The inner loop of `_collect_employer_names` over one tag's cleaned
   * values: empty and already seen names are skipped, the rest appended
   * and remembered.
   */
  method AddUnseen(names: seq<string>, seen: set<string>, cleaned: seq<string>) returns (names': seq<string>, seen': set<string>)
    ensures names' == names + DedupeFrom(Present(cleaned), seen)
    ensures seen' == seen + Elements(Present(cleaned))
  {
    names', seen' := names, seen;
    for j := 0 to |cleaned|
      invariant names' == names + DedupeFrom(Present(cleaned[..j]), seen)
      invariant seen' == seen + Elements(Present(cleaned[..j]))
    {
      var name := cleaned[j];
      AddUnseenStep(cleaned, j, seen);
      if name != "" && name !in seen' {
        assert names' + [name] == names + (DedupeFrom(Present(cleaned[..j]), seen) + [name]);
        seen' := seen' + {name};
        names' := names' + [name];
      }
    }
    assert cleaned[..|cleaned|] == cleaned;
  }

  /** One step of the outer loop: the next tag's kept values follow the earlier ones. */
  lemma EmployerNamesStep(tags: seq<string>, values: string -> seq<string>, k: nat)
    requires k < |tags|
    ensures Present(CleanAll(ConcatValues(tags[..k + 1], values)))
         == Present(CleanAll(ConcatValues(tags[..k], values))) + Present(CleanAll(values(tags[k])))
  {
    var all := ConcatValues(tags[..k], values);
    ConcatValuesStep(tags, values, k);
    CleanAllAppend(all, values(tags[k]));
    PresentAppend(CleanAll(all), CleanAll(values(tags[k])));
  }

  /** Deduplicating more values adds exactly those not already listed, and the seen set grows by them. */
  lemma DedupeExtends(before: seq<string>, added: seq<string>)
    ensures Dedupe(before + added) == Dedupe(before) + DedupeFrom(added, Elements(before))
    ensures Elements(before + added) == Elements(before) + Elements(added)
  {
    DedupeAppend(before, added, {});
    assert {} + (set x | x in before) == Elements(before);
  }

  /** `_collect_employer_names(account)`. */
  method CollectEmployerNames(d: Doc, parent: map<nat, nat>, account: nat) returns (names: seq<string>)
    ensures names == EmployerNames(d, parent, account)
  {
    ghost var valuesOf := EmployerValues(d, parent, account);
    var seen: set<string> := {};
    names := [];
    for k := 0 to |EmployerNameTags|
      invariant names == Dedupe(Present(CleanAll(ConcatValues(EmployerNameTags[..k], valuesOf))))
      invariant seen == Elements(Present(CleanAll(ConcatValues(EmployerNameTags[..k], valuesOf))))
    {
      var values := CollectTagValues(d, parent, account, EmployerNameTags[k], true);
      assert values == valuesOf(EmployerNameTags[k]);
      EmployerNamesStep(EmployerNameTags, valuesOf, k);
      DedupeExtends(Present(CleanAll(ConcatValues(EmployerNameTags[..k], valuesOf))), Present(CleanAll(values)));
      names, seen := AddUnseen(names, seen, CleanAll(values));
    }
    assert EmployerNameTags[..|EmployerNameTags|] == EmployerNameTags;
  }
}
