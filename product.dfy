/**
 * The product type of an account (`_get_product_type`): a label read from the
 * plan names by keyword, a label looked up from the SUG-MUTZAR product code,
 * and the rule that merges the two.
 */
module Product {
  import opened Wrappers
  import opened Seqs
  import opened Text
  import opened Document
  import opened FieldResolver
  import opened BalanceFields
  import opened Tables

  const PlanNameTags: seq<string> := ["SHEM-TOCHNIT", "TOCHNIT", "SHEM_TOCHNIT"]
  const ProductCodeTag: string := "SUG-MUTZAR"

  const InvestmentWord: string := "גמל להשקעה"
  const InvestmentFundWord: string := "קופת גמל להשקעה"
  const StudyWord: string := "השתלמות"
  const PensionWord: string := "פנסיה"
  const MakefetWord: string := "מקפת"
  const ReservesWord: string := "עתודות"
  const ProvidentWord: string := "גמל"
  const InsuranceWord: string := "ביטוח"
  const LifeWord: string := "חיים"
  const ManagersWord: string := "מנהלים"
  const ManagerWord: string := "מנהל"
  const SavingsWord: string := "חיסכון"
  const SavingsEnglish: string := "savings"

  predicate InvestmentName(name: string) {
    Contains(name, InvestmentWord) || Contains(name, InvestmentFundWord)
  }

  predicate PensionName(name: string) {
    Contains(name, PensionWord) || Contains(name, MakefetWord) || Contains(name, ReservesWord)
  }

  predicate InsuranceName(name: string) {
    Contains(name, InsuranceWord) && (Contains(name, LifeWord) || Contains(name, ManagersWord) || Contains(name, ManagerWord))
  }

  predicate SavingsName(name: string) {
    Contains(name, SavingsWord) || Contains(Lower(name), SavingsEnglish)
  }

  /**
   * The label one plan name gives, by the first keyword rule that matches.
   * The insurance rule re-checks for a pension keyword, but every name with
   * one was already labelled a pension fund by the rule before, so a
   * pension-fund label comes from the pension keywords alone.
   */
  function ClassifyName(name: string): (r: Option<string>)
    ensures r == Some(InvestmentProvidentFund) <==> InvestmentName(name)
    ensures r == Some(StudyFund) <==> !InvestmentName(name) && Contains(name, StudyWord)
    ensures r == Some(PensionFund) <==> !InvestmentName(name) && !Contains(name, StudyWord) && PensionName(name)
    ensures r == Some(LifePolicy) <==>
      !InvestmentName(name) && !Contains(name, StudyWord) && !PensionName(name) && !Contains(name, ProvidentWord) && InsuranceName(name)
    ensures r == Some(ProvidentFund) <==>
      !InvestmentName(name) && !Contains(name, StudyWord) && !PensionName(name) && Contains(name, ProvidentWord)
    ensures r == Some(PureSavingsPolicy) <==>
      !InvestmentName(name) && !Contains(name, StudyWord) && !PensionName(name) && !Contains(name, ProvidentWord)
      && !InsuranceName(name) && SavingsName(name)
    ensures r.None? <==>
      !InvestmentName(name) && !Contains(name, StudyWord) && !PensionName(name) && !Contains(name, ProvidentWord)
      && !InsuranceName(name) && !SavingsName(name)
    ensures r.Some? ==> r.value in {InvestmentProvidentFund, StudyFund, PensionFund, ProvidentFund, LifePolicy, PureSavingsPolicy}
  {
    if InvestmentName(name) then Some(InvestmentProvidentFund)
    else if Contains(name, StudyWord) then Some(StudyFund)
    else if PensionName(name) then Some(PensionFund)
    else if Contains(name, ProvidentWord) then Some(ProvidentFund)
    else if InsuranceName(name) then
      if Contains(name, MakefetWord) || Contains(name, PensionWord) then Some(PensionFund) else Some(LifePolicy)
    else if SavingsName(name) then Some(PureSavingsPolicy)
    else None
  }

  /** The label of the first element that has one under `labelOf`. */
  function FirstLabel(xs: seq<string>, labelOf: string -> Option<string>): (r: Option<string>)
    ensures r.None? <==> forall k :: 0 <= k < |xs| ==> labelOf(xs[k]).None?
    ensures r.Some? ==>
      exists k :: 0 <= k < |xs| && labelOf(xs[k]) == r && forall j :: 0 <= j < k ==> labelOf(xs[j]).None?
    decreases |xs|
  {
    if xs == [] then None
    else if labelOf(xs[0]).Some? then labelOf(xs[0])
    else
      var r := FirstLabel(xs[1..], labelOf);
      assert forall k :: 0 <= k < |xs| - 1 ==> xs[1..][k] == xs[k + 1];
      r
  }

  lemma {:induction false} FirstLabelAt(xs: seq<string>, labelOf: string -> Option<string>, k: nat)
    requires k < |xs| && labelOf(xs[k]).Some?
    requires forall j :: 0 <= j < k ==> labelOf(xs[j]).None?
    ensures FirstLabel(xs, labelOf) == labelOf(xs[k])
    decreases k
  {
    if k > 0 {
      FirstLabelAt(xs[1..], labelOf, k - 1);
    }
  }

  /** `name_type`: the label of the first plan name that has one. */
  function NameType(names: seq<string>): Option<string> {
    FirstLabel(names, ClassifyName)
  }

  /** No product code is blank and no label is empty, so the source's checks for either never fire. */
  lemma ProductLabelsNonEmpty()
    ensures "" !in ProductTypeMap
    ensures forall c :: c in ProductTypeMap ==> ProductTypeMap[c] != ""
  {
  }

  /** The label a product code maps to, after trimming, if it maps to one. */
  function CodeLabel(code: string): (r: Option<string>)
    ensures r.Some? ==> Strip(code) in ProductTypeMap && r.value == ProductTypeMap[Strip(code)]
    ensures r.None? <==> Strip(code) !in ProductTypeMap
  {
    var c := Strip(code);
    ProductLabelsNonEmpty();
    if c != "" && c in ProductTypeMap && ProductTypeMap[c] != "" then Some(ProductTypeMap[c]) else None
  }

  /** `code_type`: the label of the first code that maps to one; blank and unknown codes are skipped. */
  function CodeType(codes: seq<string>): Option<string> {
    FirstLabel(codes, CodeLabel)
  }

  /** The labels of insurance policies, which a plan name for a pension or study fund overrides. */
  const PolicyLabels: set<string> := {LifeSavingsPolicy, LifePolicy, PureSavingsPolicy}

  /** Each code trimmed. */
  function Stripped(codes: seq<string>): (r: seq<string>)
    ensures |r| == |codes| && forall k :: 0 <= k < |codes| ==> r[k] == Strip(codes[k])
  {
    seq(|codes|, k requires 0 <= k < |codes| => Strip(codes[k]))
  }

  /**
   * The merge: when both labels exist, an agreeing code label, a policy code
   * label not overridden by a pension or study fund name, or else the name
   * label; then whichever label exists; then the first plan name; then the
   * first non-blank code.
   */
  function MergeProductType(codeType: Option<string>, nameType: Option<string>, planNames: seq<string>, codes: seq<string>): (r: string)
    ensures nameType.Some? && (codeType.None? || codeType.value !in PolicyLabels) ==> r == nameType.value
    ensures codeType.Some? && (nameType.None? || (codeType.value in PolicyLabels && nameType.value !in {PensionFund, StudyFund}))
        ==> r == codeType.value
    ensures codeType.Some? && nameType.Some? && codeType.value == nameType.value ==> r == codeType.value
    ensures codeType.Some? && nameType.Some? && codeType.value in PolicyLabels && nameType.value in {PensionFund, StudyFund}
        ==> r == nameType.value
    ensures codeType.None? && nameType.None? && planNames != [] ==> r == planNames[0]
    ensures codeType.None? && nameType.None? && planNames == [] ==> r == FirstNonEmpty(Stripped(codes))
  {
    if codeType.Some? && nameType.Some? then
      if codeType.value == nameType.value then codeType.value
      else if codeType.value in PolicyLabels then
        if nameType.value in {PensionFund, StudyFund} then nameType.value else codeType.value
      else nameType.value
    else if nameType.Some? then nameType.value
    else if codeType.Some? then codeType.value
    else if planNames != [] then planNames[0]
    else FirstNonEmpty(Stripped(codes))
  }

  /** The merged label is always one of the two labels when either exists. */
  lemma MergeChoosesALabel(codeType: Option<string>, nameType: Option<string>, planNames: seq<string>, codes: seq<string>)
    requires codeType.Some? || nameType.Some?
    ensures var r := MergeProductType(codeType, nameType, planNames, codes);
      (codeType.Some? && r == codeType.value) || (nameType.Some? && r == nameType.value)
  {
  }

  /**
   * A pension-fund code with a plan name labelled life insurance (a
   * "managers' insurance" plan) yields the name's label: the code label is
   * not a policy label, so the name wins.
   */
  lemma PensionCodeWithManagersPlan(code: string, name: string, planNames: seq<string>, codes: seq<string>)
    requires CodeLabel(code) == Some(PensionFund)
    requires Contains(name, InsuranceWord) && Contains(name, ManagersWord)
    requires !InvestmentName(name) && !Contains(name, StudyWord) && !PensionName(name) && !Contains(name, ProvidentWord)
    ensures ClassifyName(name) == Some(LifePolicy)
    ensures MergeProductType(CodeLabel(code), ClassifyName(name), planNames, codes) == LifePolicy
  {
    assert InsuranceName(name);
  }

  /** A policy code with a plan name labelled pension fund yields the pension fund. */
  lemma PolicyCodeWithPensionPlan(code: string, name: string, planNames: seq<string>, codes: seq<string>)
    requires CodeLabel(code).Some? && CodeLabel(code).value in PolicyLabels
    requires !InvestmentName(name) && !Contains(name, StudyWord) && PensionName(name)
    ensures MergeProductType(CodeLabel(code), ClassifyName(name), planNames, codes) == PensionFund
  {
  }

  /** Every value collected for a tag is trimmed and non-empty. */
  lemma TagValuesStripped(d: Doc, parent: map<nat, nat>, start: nat, tag: string, includeParents: bool)
    ensures forall v :: v in TagValues(d, parent, start, tag, includeParents) ==> v != "" && Strip(v) == v
  {
    var chain := SearchChain(parent, start, includeParents);
    forall v | v in TagValues(d, parent, start, tag, includeParents)
      ensures v != "" && Strip(v) == v
    {
      InChainValues(d, chain, tag, v);
      var a :| a in chain && v in NonEmptyTexts(d, FindAll(d, a, tag));
      NonEmptyTextsStripped(d, FindAll(d, a, tag));
    }
  }

  /** Trimming and dropping blanks leaves a list of trimmed, non-empty strings unchanged. */
  lemma {:induction false} NonBlankOfStripped(xs: seq<string>)
    requires forall k :: 0 <= k < |xs| ==> xs[k] != "" && Strip(xs[k]) == xs[k]
    ensures NonBlank(xs) == xs
    decreases |xs|
  {
    if xs != [] {
      var init := xs[..|xs| - 1];
      var last := xs[|xs| - 1];
      assert forall k :: 0 <= k < |init| ==> init[k] == xs[k];
      NonBlankOfStripped(init);
      assert Strip(last) == last && last != "";
      InitLast(xs);
    }
  }

  /** Trimming one more part adds it when it is not blank. */
  lemma NonBlankStep(xs: seq<string>, k: nat)
    requires k < |xs|
    ensures NonBlank(xs[..k + 1]) == NonBlank(xs[..k]) + (if Strip(xs[k]) != "" then [Strip(xs[k])] else [])
  {
    assert xs[..k + 1][..k] == xs[..k];
  }

  /** `plan_names`: the trimmed, non-empty plan names collected for each plan-name tag. */
  function PlanNames(d: Doc, parent: map<nat, nat>, account: nat): seq<string> {
    NonBlank(ConcatValues(PlanNameTags, t => TagValues(d, parent, account, t, true)))
  }

  /** The trimming of the plan names changes nothing: they come trimmed and non-empty. */
  lemma PlanNamesAreCollected(d: Doc, parent: map<nat, nat>, account: nat)
    ensures PlanNames(d, parent, account) == ConcatValues(PlanNameTags, t => TagValues(d, parent, account, t, true))
  {
    var values := t => TagValues(d, parent, account, t, true);
    var all := ConcatValues(PlanNameTags, values);
    forall k | 0 <= k < |all| ensures all[k] != "" && Strip(all[k]) == all[k] {
      assert all[k] in all;
      var t :| t in PlanNameTags && all[k] in values(t);
      TagValuesStripped(d, parent, account, t, true);
    }
    NonBlankOfStripped(all);
  }

  /** `codes`: the SUG-MUTZAR values, or the direct child's text when there are none. */
  function Codes(d: Doc, parent: map<nat, nat>, account: nat): seq<string> {
    var values := TagValues(d, parent, account, ProductCodeTag, true);
    if values != [] then values
    else
      var code := GetText(d, account, ProductCodeTag, "");
      if code != "" then [code] else []
  }

  /**
   * The direct-child fallback never adds a code: a direct child with text is
   * also a descendant of the account, so its text is already collected.
   */
  lemma CodesFallbackRedundant(d: Doc, parent: map<nat, nat>, account: nat)
    ensures Codes(d, parent, account) == TagValues(d, parent, account, ProductCodeTag, true)
  {
    var code := GetText(d, account, ProductCodeTag, "");
    if code != "" {
      var c := FindChild(d, account, ProductCodeTag).value;
      ChildIsDescendant(d, account, c);
      var found := FindAll(d, account, ProductCodeTag);
      assert c in found;
      InNonEmptyTexts(d, found, code);
      var chain := SearchChain(parent, account, true);
      InChainValues(d, chain, ProductCodeTag, code);
      assert code in TagValues(d, parent, account, ProductCodeTag, true);
    }
  }

  /** `_get_product_type(account)`. */
  function ProductType(d: Doc, parent: map<nat, nat>, account: nat): string {
    var planNames := PlanNames(d, parent, account);
    var codes := Codes(d, parent, account);
    MergeProductType(CodeType(codes), NameType(planNames), planNames, codes)
  }

  /** The inner plan-name loop: append each name trimmed, skipping blanks. */
  method AppendTrimmed(planNames: seq<string>, names: seq<string>) returns (extended: seq<string>)
    ensures extended == planNames + NonBlank(names)
  {
    extended := planNames;
    for j := 0 to |names|
      invariant extended == planNames + NonBlank(names[..j])
    {
      var normalized := Strip(names[j]);
      NonBlankStep(names, j);
      ghost var before := NonBlank(names[..j]);
      if normalized != "" {
        assert planNames + (before + [normalized]) == planNames + before + [normalized];
        extended := extended + [normalized];
      } else {
        assert before + [] == before;
      }
    }
    assert names[..|names|] == names;
  }

  /** The plan-name loop: the collected values of each tag, trimmed, blanks dropped. */
  method CollectPlanNames(d: Doc, parent: map<nat, nat>, account: nat) returns (planNames: seq<string>)
    ensures planNames == PlanNames(d, parent, account)
  {
    ghost var values := t => TagValues(d, parent, account, t, true);
    planNames := [];
    for i := 0 to |PlanNameTags|
      invariant planNames == NonBlank(ConcatValues(PlanNameTags[..i], values))
    {
      var names := CollectTagValues(d, parent, account, PlanNameTags[i], true);
      assert names == values(PlanNameTags[i]);
      planNames := AppendTrimmed(planNames, names);
      ConcatValuesStep(PlanNameTags, values, i);
      NonBlankAppend(ConcatValues(PlanNameTags[..i], values), names);
    }
    assert PlanNameTags[..|PlanNameTags|] == PlanNameTags;
  }

  /**
   * The plan-name classification loop and the product-code loop: each stops
   * at the first element that has a label.
   */
  method FirstLabelOf(xs: seq<string>, labelOf: string -> Option<string>) returns (found: Option<string>)
    ensures found == FirstLabel(xs, labelOf)
  {
    for k := 0 to |xs|
      invariant forall j :: 0 <= j < k ==> labelOf(xs[j]).None?
    {
      var matched := labelOf(xs[k]);
      if matched.Some? {
        FirstLabelAt(xs, labelOf, k);
        return matched;
      }
    }
    return None;
  }

  /** The merge, ending with the loop for the first non-blank code. */
  method Merge(codeType: Option<string>, nameType: Option<string>, planNames: seq<string>, codes: seq<string>)
    returns (productType: string)
    ensures productType == MergeProductType(codeType, nameType, planNames, codes)
  {
    if codeType.Some? && nameType.Some? {
      if codeType.value == nameType.value {
        return codeType.value;
      }
      if codeType.value in PolicyLabels {
        if nameType.value in {PensionFund, StudyFund} {
          return nameType.value;
        }
        return codeType.value;
      }
      return nameType.value;
    }
    if nameType.Some? {
      return nameType.value;
    }
    if codeType.Some? {
      return codeType.value;
    }
    if planNames != [] {
      return planNames[0];
    }
    productType := FirstStrippedCode(codes);
  }

  /** The loop for the first code that is not blank once trimmed, or "". */
  method FirstStrippedCode(codes: seq<string>) returns (code: string)
    ensures code == FirstNonEmpty(Stripped(codes))
  {
    ghost var trimmed := Stripped(codes);
    for k := 0 to |codes|
      invariant forall j :: 0 <= j < k ==> trimmed[j] == ""
    {
      var normalized := Strip(codes[k]);
      assert normalized == trimmed[k];
      if normalized != "" {
        FirstNonEmptyAt(trimmed, k);
        return normalized;
      }
    }
    assert forall j :: 0 <= j < |trimmed| ==> trimmed[j] == "";
    return "";
  }

  /** `_get_product_type(account)`. */
  method GetProductType(d: Doc, parent: map<nat, nat>, account: nat) returns (productType: string)
    ensures productType == ProductType(d, parent, account)
  {
    var planNames := CollectPlanNames(d, parent, account);
    var nameType := FirstLabelOf(planNames, ClassifyName);
    var codes := CollectTagValues(d, parent, account, ProductCodeTag, true);
    if codes == [] {
      var code := GetText(d, account, ProductCodeTag, "");
      codes := if code != "" then [code] else [];
    }
    var codeType := FirstLabelOf(codes, CodeLabel);
    productType := Merge(codeType, nameType, planNames, codes);
  }
}
