# Pension file extraction, modelled in Dafny

This project models the extraction engine of `PensionFileProcessor`, which reads Israeli
pension-clearing-house ("mislaka") XML files. It works on an already-parsed element tree and
produces these results:

- one record per pension account, holding:
  - the account number, plan and managing company;
  - the balance, chosen by a five-tier resolver with a 0.5 tolerance;
  - the balance and start dates;
  - the product type, from keyword rules over plan names merged with a product-code table;
  - the collected tag fields;
  - the contribution ("tagmul") totals per employee/employer and regulatory period;
  - the severance ("pitzuim") components;
  - the gap between the balance and the sum of the components;
  - the employer names;
- the client's personal details, with zero-stripped ID, joined name and composed address;
- the file's base name.

The tree is a `Document.Doc`:
- a sequence of nodes, each with a tag, a text and the indices of its children;
- element 0 is the root;
- a child is numbered after its parent, as in document order.

`find`, `findall('.//t')` and `iter()` become functions over node indices. The child-to-parent
index is a `map<nat, nat>`. Amounts are `real`s. Python's `float()` is modelled by a decimal
parser that returns `None` where Python raises `ValueError`.

The Python code changes state step by step in several places:
- the loaded tree and parent index (`_load_file`);
- the parent-chain walk with its visited set (`_collect_tag_values`);
- the running totals (`_sum_fields`, the tagmul bucket dictionaries);
- the grouping dictionary of the balance fields;
- the `seen`/`names` pair of the employer names;
- the accounts list.

These become methods with loops. Each method is proved equal to a specification function, and
the properties are proved about those functions. `PensionFileProcessor` is a class whose
`LoadFile`, `ExtractData` and `Process` update and read its fields.

Modules (one file each):
- `Seqs` (`seqs.dfy`): order-preserving deduplication.
- `Text` (`text.dfy`): strip, split, join and upper-casing.
- `Numeric` (`numeric.dfy`): `float()`.
- `Document` (`document.dfy`): the tree, the searches, the parent index and the climb.
- `Tables` (`tables.dfy`): the constant tables.
- `FieldResolver` (`resolver.dfy`): the text getters, the tag-value collector and `_collect_specific_tags`.
- `BalanceFields` (`balancefields.dfy`): the balance-related fields, `_safe_sum_values` and the severance components.
- `Tagmul` (`tagmul.dfy`): the contribution grid.
- `Balance` (`balance.dfy`): `_find_balance` and `_sum_fields`.
- `Product` (`product.dfy`): the product type.
- `Normalisers` (`normalisers.dfy`):
  - dates;
  - managing company;
  - plan type;
  - employer names.
- `Person` (`person.dfy`): personal details.
- `Extractor` (`extractor.dfy`):
  - the account locator;
  - the per-account record;
  - the processor class.

In the product-type merge, when the code label and the name label disagree and the code label
is not one of the three policy labels, the name label is returned. So pension-fund code "4"
with a "ביטוח מנהלים" plan name yields the life-policy label of the name, as
`Product.PensionCodeWithManagersPlan` shows. The last fallback returns the first code after
trimming.

## Model

| member | source | states |
|---|---|---|
| Seqs.DedupeFrom | process_pensions.py:509-515 | The deduplicated list has no repeats and holds exactly the values of the input not already seen. |
| Seqs.DedupeSnoc | process_pensions.py:509-515 | A value appended to the input appears at the end of the output exactly when it was not seen before. |
| Seqs.DedupeOfDistinct | process_pensions.py:509-515 | A duplicate-free input disjoint from the seen set passes through unchanged. |
| Seqs.DedupeIdempotent | process_pensions.py:509-515 | Deduplicating twice is deduplicating once. |
| Seqs.DedupeAppend | process_pensions.py:509-515 | Deduplicating a concatenation is the first part's result followed by the second part's values not in the first part. |
| Seqs.DedupeInOrder | process_pensions.py:509-515 | The `seen`-set loop returns exactly the order-preserving deduplication. |
| Text.StripChars | process_pensions.py:490 | `str.strip(cs)`: the result neither starts nor ends with a character of `cs`. |
| Text.StripCharsSlice | process_pensions.py:490 | Only characters of `cs` are removed, and only from the two ends: the result is the slice of the input after its leading run of `cs` characters, and everything after the result is in `cs`. |
| Text.StripIdempotent | process_pensions.py:490 | Stripping twice is stripping once. |
| Text.RemoveChar | process_pensions.py:599 | `replace(',', '')`: the result has no such character, keeps every other character of the input, and is the input itself when the character does not occur. |
| Text.RemoveCharAppend | process_pensions.py:599 | Removal works piecewise over a concatenation, so the remaining characters keep their order. |
| Text.Split | process_pensions.py:808 | `str.split(sep)` gives at least one part, and no part contains the separator. |
| Text.SplitConcat | process_pensions.py:808 | Splitting `a + sep + b` splits `a` and `b` separately and concatenates the parts. |
| Text.SplitJoin | process_pensions.py:266 | Joining separator-free parts and splitting again returns the parts. |
| Numeric.ParseNatToString | process_pensions.py:596-601 | `float()` of a decimal numeral is its value. |
| Numeric.ParseNegative | process_pensions.py:596-601 | `float()` of a minus sign followed by a numeral is the negated value. |
| Numeric.ParseDecimalString | process_pensions.py:596-601 | `float()` of `digits.fraction` is the integer part plus the fraction scaled by its length. |
| Document.FindChild | process_pensions.py:489 | `elem.find(tag)`: a found element is the first child with that tag (every earlier child has another tag); when none is found, no child has it. |
| Document.WithTag | process_pensions.py:182 | `findall('.//tag')` keeps exactly the descendants carrying the tag, and never more entries than it was given. |
| Document.WithTagAppend | process_pensions.py:182 | Selection by tag works piecewise over a concatenation, so the selected elements keep document order. |
| Document.WithTagHead | process_pensions.py:489 | The first selected entry is the first entry with the tag: every entry before it has another tag. |
| Document.FindFirst | process_pensions.py:492-493 | `elem.find('.//tag')`: the first descendant in document order with the tag; none exactly when no descendant has it. |
| Document.ChildLinks | process_pensions.py:153 | The parent-index entries of one element map exactly its children to it. |
| Document.ParentsOf | process_pensions.py:153 | Every parent-index entry maps a child to an element it really is a child of, and one numbered before it. |
| Document.ParentsOfComplete | process_pensions.py:153 | Every child of an iterated element is in the parent index. |
| Document.Climb | process_pensions.py:500-508 | The parent-chain walk starts at the start element, repeats nothing, avoids visited elements and follows the parent index step by step. |
| Document.ClimbVisitsAncestors | process_pensions.py:500-508 | From any element the walk visits its ancestors in order and ends at an element with no parent (the root). |
| Document.ClimbEndsAtRoot | process_pensions.py:500-508 | With parents numbered before children, the walk ends at an element without a parent. |
| FieldResolver.GetText | process_pensions.py:488-490 | A missing child or a child with empty text gives the default; otherwise the stripped text of the first child with the tag. |
| FieldResolver.FindTextAnywhere | process_pensions.py:492-494 | The stripped text of the first descendant with the tag, or "" when there is none. |
| FieldResolver.GetFloat | process_pensions.py:596-601 | An empty child text gives `None`; non-empty text gives the parse of its comma-free form. |
| FieldResolver.FirstNonEmpty | process_pensions.py:203-209 | An `a or b or c` chain: "" exactly when every text is empty, else the first non-empty text. |
| FieldResolver.FirstNonEmptyAt | process_pensions.py:203-209 | The chain's value is the text at the first non-empty position. |
| FieldResolver.FirstNonEmptyOf | process_pensions.py:203-209 | The loop form returns the chain's value. |
| FieldResolver.InNonEmptyTexts | process_pensions.py:504-506 | A value is collected from a set of elements exactly when it is non-empty and is the stripped text of one of them. |
| FieldResolver.NonEmptyTextsStripped | process_pensions.py:504-506 | Collected values are already stripped. |
| FieldResolver.CollectTexts | process_pensions.py:504-506 | The append loop collects exactly the stripped non-empty texts. |
| FieldResolver.InChainValues | process_pensions.py:500-508 | A raw value comes from some element of the search chain's descendants with the tag. |
| FieldResolver.SearchChain | process_pensions.py:500-508 | The search starts at the start element; without climbing it is that element alone. |
| FieldResolver.TagValues | process_pensions.py:496-515 | `_collect_tag_values`: no duplicates, no empty values, and exactly the values found along the search chain. |
| FieldResolver.RemainingStep | process_pensions.py:500-508 | One loop step visits the current element, then continues from its parent only when climbing. |
| FieldResolver.WalkChain | process_pensions.py:500-508 | The while-loop with its visited set collects the values of the search chain in order. |
| FieldResolver.CollectTagValues | process_pensions.py:496-515 | The collector method returns `TagValues`. |
| FieldResolver.ChainValuesAppend | process_pensions.py:500-508 | The values of a concatenated chain are the values of each part in order. |
| FieldResolver.TagValuesPrefix | process_pensions.py:496-515 | The values found without climbing are a prefix of those found with climbing. |
| FieldResolver.TagValuesBelow | process_pensions.py:496-515 | Without climbing, a value is collected exactly when it is the non-empty stripped text of a descendant with the tag. |
| FieldResolver.JoinedEntries | process_pensions.py:517-523 | A tag is a key exactly when it yielded values, and its entry is the values joined with `' \| '`. |
| FieldResolver.JoinedEntriesSnoc | process_pensions.py:517-523 | One more tag adds its joined entry exactly when it has values. |
| FieldResolver.CollectSpecificTags | process_pensions.py:517-523 | The loop over the tags builds `SpecificTags`. |
| FieldResolver.ConcatValues | process_pensions.py:696-702 | The values of all tags in turn: a value is present exactly when some tag yielded it. |
| BalanceFields.Grouped | process_pensions.py:616-627 | Every grouping key is a balance-related tag (explicit or containing a keyword) with at least one value. |
| BalanceFields.GroupedStep | process_pensions.py:616-627 | One node appends its stripped text to its tag's list exactly when it has text and a balance-related tag. |
| BalanceFields.GroupedByTag | process_pensions.py:616-627 | A tag is grouped exactly when some kept node carries it, and its list is those nodes' texts in document order. |
| BalanceFields.JoinGroups | process_pensions.py:629-637 | The result has exactly the keys of the groups, and each entry is the group deduplicated (first occurrence kept) and joined with " \| ". |
| BalanceFields.JoinEachGroup | process_pensions.py:629-637 | The second loop dedupes and joins each group with `' \| '`. |
| BalanceFields.CollectBalanceRelatedFields | process_pensions.py:614-637 | `_collect_balance_related_fields` returns `BalanceRelated`. |
| BalanceFields.TrimmedByAppend | process_pensions.py:808 | Trimming and dropping blanks distributes over concatenation. |
| BalanceFields.NonBlankAppend | process_pensions.py:808 | `[p.strip() for p in parts if p.strip()]` distributes over concatenation. |
| BalanceFields.SumAmountsAppend | process_pensions.py:810-819 | The segment sum of a concatenation is the sum of the parts' sums. |
| BalanceFields.SafeSumConcat | process_pensions.py:803-822 | The sum of `a\|b` is the sum of `a` plus the sum of `b`. |
| BalanceFields.SafeSumAroundSentinel | process_pensions.py:803-822 | A sentinel segment between two pieces adds nothing, so "100\|NIL\|250" sums to 350. |
| BalanceFields.SentinelSum | process_pensions.py:803-822 | A sentinel alone (such as "NIL", "0.00" or "") sums to 0. |
| BalanceFields.SentinelSegment | process_pensions.py:812-814 | A sentinel segment counts as 0. |
| BalanceFields.SafeSumOfDigits | process_pensions.py:803-822 | A single number written in digits sums to its value. |
| BalanceFields.SafeSumOfBlank | process_pensions.py:803-822 | Text with no non-blank segment sums to 0. |
| BalanceFields.Severance | process_pensions.py:789-801 | At most five components, every emitted total non-zero, none for empty fields; otherwise every column with a non-zero total is emitted, and the components sum to the total over all columns. |
| BalanceFields.SeveranceFrom | process_pensions.py:795-801 | Each emitted component is one of the columns with the total of that column's tags, and non-zero; every column with a non-zero total is emitted. |
| BalanceFields.SeveranceFromAppend | process_pensions.py:795-801 | Columns are emitted one at a time, so the components follow the column order. |
| BalanceFields.SeveranceKeepsSum | process_pensions.py:248 | Dropping the zero columns keeps the sum: `severance_total` is the sum of every column's total. |
| BalanceFields.SeveranceOfNoFields | process_pensions.py:789-801 | No fields give no components. |
| BalanceFields.SumColumn | process_pensions.py:796-799 | The loop over a column's tags sums their segment sums. |
| BalanceFields.ExtractSeveranceComponents | process_pensions.py:789-801 | The method returns `Severance`. |
| BalanceFields.SumEachColumn | process_pensions.py:795-801 | The column loop returns `SeveranceFrom`. |
| Tagmul.SecondaryRow | process_pensions.py:663-666 | A fallback row offers (code, amount) exactly when the amount parses and the KOD-SUG-HAFRASHA code is non-empty. |
| Tagmul.PrimaryRow | process_pensions.py:643-658 | A primary row contributes exactly when its amount parses and its REKIV and TECHULAT codes are in their tables; it then carries the mapped role and period and the parsed amount. |
| Tagmul.SecondaryRole | process_pensions.py:668-674 | A fallback row goes to the employee only when that role lacks primary data and the code is an employee code; likewise for the employer. |
| Tagmul.Emit | process_pensions.py:679-686 | Every emitted column is a bucket's column with that bucket's non-zero total, and every bucket with a non-zero total is emitted. |
| Tagmul.EmitAppend | process_pensions.py:679-686 | Emitting works bucket by bucket, so the columns follow the bucket order. |
| Tagmul.Grid | process_pensions.py:640-677 | The grid has exactly the six buckets. |
| Tagmul.PrimaryStep | process_pensions.py:643-660 | A primary row adds its amount to its bucket and marks its role, and a skipped row changes nothing. |
| Tagmul.SecondaryStep | process_pensions.py:662-677 | A fallback row adds its amount only to the after-2000 bucket of the role it is assigned. |
| Tagmul.PrimaryPass | process_pensions.py:640-660 | The first loop leaves every bucket at its primary total, with the roles flagged exactly as covered. |
| Tagmul.SecondaryPass | process_pensions.py:662-677 | The fallback loop adds each bucket's fallback total for the uncovered roles. |
| Tagmul.EmitColumns | process_pensions.py:679-686 | The emitting loop returns `Emit`. |
| Tagmul.CollectTagmulPeriods | process_pensions.py:639-686 | `_collect_tagmul_periods` returns `TagmulPeriods`. |
| Tagmul.SecondaryTotalZero | process_pensions.py:668-677 | The fallback adds nothing to a covered role or to any bucket other than after-2000. |
| Tagmul.FallbackOnlyFillsMissingRole | process_pensions.py:662-677 | A bucket differs from its primary total only when the fallback ran, its role was uncovered and it is the after-2000 bucket. |
| Tagmul.CoveredRoles | process_pensions.py:656-660 | A role is covered exactly when some primary row contributed to it. |
| Tagmul.SkippedRowsNeutral | process_pensions.py:648-654 | Rows skipped for a missing amount or unmapped code change no total and cover no role. |
| Tagmul.EmitKeepsSum | process_pensions.py:679-686 | Dropping zero columns keeps the sum of the totals. |
| Tagmul.TagmulPeriods | process_pensions.py:247 | `tagmul_total` is the sum of all six bucket totals of the grid. |
| Balance.FirstFloat | process_pensions.py:477-481 | The first candidate field that parses, or none when none does. |
| Balance.SumPresent | process_pensions.py:476-485 | The count is at most the number of nodes and is 0 exactly when no node gave a value. |
| Balance.SumPresentAppend | process_pensions.py:476-485 | Totals and counts add over concatenated node lists. |
| Balance.TierOutcome | process_pensions.py:404-432 | A tier returns its total when above 0.5 and exactly 0 when within 0.5, and falls through exactly when no node counted or the total is below -0.5. |
| Balance.FirstPositive | process_pensions.py:434-450 | Tier 4: the first generic field, in list order, whose value parses and is positive. |
| Balance.Weight | process_pensions.py:459-462 | Weight 2 exactly when the upper-cased tag contains SCHUM, YITRAT or ERECH, else 1. |
| Balance.Candidate | process_pensions.py:453-463 | An element is a candidate exactly when its text has a digit and its comma-free text parses to a positive value; it carries that value and its tag's weight. |
| Balance.Candidates | process_pensions.py:452-463 | `potential_balances`: every entry is positive. |
| Balance.CandidatesMembership | process_pensions.py:452-463 | A pair is in `potential_balances` exactly when some element under the account offers it. |
| Balance.CandidatesAppend | process_pensions.py:452-463 | The scan works element by element, so the candidates keep document order. |
| Balance.Top | process_pensions.py:466-468 | The first element after sorting is in the list and no element is ahead of it by weight, then value. |
| Balance.LastResort | process_pensions.py:466-471 | Tier 5: the value of a top-ranked candidate, or 0 when there is none. |
| Balance.ChooseBalance | process_pensions.py:396-471 | The first tier that decides gives the balance: tier 1, else tier 2, else tier 3, else the first positive generic field in list order, else the last-resort candidate value. |
| Balance.ChooseBalanceNonNegative | process_pensions.py:396-471 | The resolved balance is never negative. |
| Balance.BalanceNonNegative | process_pensions.py:396-471 | `_find_balance` never returns a negative value. |
| Balance.ChooseBalanceSource | process_pensions.py:396-471 | A positive balance is one of these: a tier 1–3 total above 0.5, a generic field value, or the top candidate. |
| Balance.ChooseBalanceFallsThrough | process_pensions.py:396-471 | When tiers 1–4 all fall through, the balance is the last-resort value. |
| Balance.FirstFieldValue | process_pensions.py:477-481 | The inner loop returns the first field that parses. |
| Balance.SumNodes | process_pensions.py:476-486 | The accumulating loop returns the total and count of the nodes that gave a value. |
| Balance.SumFieldsOf | process_pensions.py:473-486 | `_sum_fields` returns `SumFields`. |
| Balance.FirstPositiveOf | process_pensions.py:447-450 | The generic-fields loop returns the first positive value. |
| Balance.ScanCandidates | process_pensions.py:452-463 | The scan loop collects exactly the candidates. |
| Balance.FindBalance | process_pensions.py:396-471 | `_find_balance` returns `Balance` and is never negative. |
| Product.ClassifyName | process_pensions.py:704-727 | The keyword rules in priority order: one iff per label (investment fund, study fund, pension fund, provident fund, life policy, pure savings) and for no label. |
| Product.FirstLabel | process_pensions.py:704-742 | The label of the first element that has one, or none exactly when no element has a label. |
| Product.CodeLabel | process_pensions.py:734-742 | A code's label is the product table's entry for the trimmed code, and there is none exactly when the trimmed code is not in the table. |
| Product.ProductLabelsNonEmpty | process_pensions.py:82-88 | No product code is blank and no label is empty. |
| Product.Stripped | process_pensions.py:766-769 | Each code trimmed, position by position. |
| Product.MergeProductType | process_pensions.py:744-771 | The merge, case by case: agreeing labels give that label; a policy code label with a pension- or study-fund name gives the name; another policy code label wins; a non-policy code label loses to the name; a lone label wins; then the first plan name; then the first non-blank trimmed code. |
| Product.MergeChoosesALabel | process_pensions.py:744-765 | When either label resolved, the result is one of the resolved labels. |
| Product.PensionCodeWithManagersPlan | process_pensions.py:744-757 | A pension-fund code with a managers'-insurance plan name yields the life-policy label. |
| Product.PolicyCodeWithPensionPlan | process_pensions.py:750-754 | A policy code with a pension plan name yields the pension fund. |
| Product.TagValuesStripped | process_pensions.py:696-702 | Collected plan names are non-empty and already trimmed. |
| Product.NonBlankOfStripped | process_pensions.py:699-702 | Trimming and dropping blanks leaves trimmed non-empty names unchanged. |
| Product.PlanNamesAreCollected | process_pensions.py:695-702 | The plan names are exactly the collected values of the three tags in order. |
| Product.CodesFallbackRedundant | process_pensions.py:729-732 | The direct-child SUG-MUTZAR fallback never adds a code. |
| Product.AppendTrimmed | process_pensions.py:699-702 | The inner loop appends each name trimmed, skipping blanks. |
| Product.CollectPlanNames | process_pensions.py:695-702 | The plan-name loop returns `PlanNames`. |
| Product.FirstLabelOf | process_pensions.py:704-742 | The label loops return the first label. |
| Product.Merge | process_pensions.py:744-771 | The merge code returns `MergeProductType`. |
| Product.FirstStrippedCode | process_pensions.py:766-771 | The last loop returns the first non-blank trimmed code, or "". |
| Product.GetProductType | process_pensions.py:694-771 | `_get_product_type` returns `ProductType`. |
| Normalisers.FormatTrimmed | process_pensions.py:606-612 | Eight digits become YYYY-MM-DD and six digits become YYYY-MM; anything else is unchanged. |
| Normalisers.FormatDate | process_pensions.py:603-612 | Empty input gives "". |
| Normalisers.FormatKeepsDigits | process_pensions.py:606-611 | Removing the dashes from a formatted digit string gives the digits back. |
| Normalisers.FormatDateKeepsDigits | process_pensions.py:603-612 | For digit input, the formatted date without its dashes is the stripped input. |
| Normalisers.FormatDateNonEmpty | process_pensions.py:603-612 | A non-empty trimmed value formats to a non-empty date. |
| Normalisers.FormatDateTrimsOthers | process_pensions.py:603-612 | Anything but 8 or 6 digits is returned stripped. |
| Normalisers.FormatDateIdempotent | process_pensions.py:603-612 | Formatting a formatted date changes nothing. |
| Normalisers.SplitTags | process_pensions.py:528-529 | A tag is a code tag exactly when it starts with KOD or its upper-case form contains MEZAHE, and the tags are split accordingly. |
| Normalisers.SplitTagsAppend | process_pensions.py:528-529 | The split works tag by tag, so both parts keep the order of the tag list. |
| Normalisers.FirstCollected | process_pensions.py:531-541 | The first value of the first tag that yielded any, else "". |
| Normalisers.ManagingCompany | process_pensions.py:525-548 | The name is the first collected name-tag value, else the fallback, else "unknown"; the code is the first collected code-tag value, else "unknown"; neither is empty. |
| Normalisers.ManagingCompanySources | process_pensions.py:525-548 | The code is a code-tag value or "unknown"; the name is a name-tag value, the fallback or "unknown". |
| Normalisers.FirstCollectedValue | process_pensions.py:531-541 | The tag loop returns the first collected value. |
| Normalisers.GetManagingCompany | process_pensions.py:525-548 | `_get_managing_company` returns `ManagingCompany`. |
| Normalisers.IndicatorType | process_pensions.py:566-572 | HODAAT-LEKULAM gives the provident-fund label; else HODAAT-LEPENSIA the pension-fund label; else HODAAT-LIBRAT the managers'-insurance label; "" exactly when none occurs. |
| Normalisers.PlanType | process_pensions.py:550-574 | The first non-empty type field; else the indicator label; "unknown" exactly when there is neither. |
| Normalisers.GetPlanType | process_pensions.py:550-574 | `_get_plan_type` returns `PlanType`. |
| Normalisers.BalanceDate | process_pensions.py:576-594 | The formatted first non-empty date child; else the formatted BlockItrot valuation date when it has text; else "". |
| Normalisers.BlockDateText | process_pensions.py:590-591 | The text of the first `.//BlockItrot//TAARICH-ERECH-TZVIROT` element, or "" when there is none. |
| Normalisers.GetBalanceDate | process_pensions.py:576-594 | `_get_balance_date` returns `BalanceDate`. |
| Normalisers.StartDate | process_pensions.py:688-692 | A missing join date gives ""; a present one gives its formatted, non-empty form. |
| Normalisers.DatesAreFormatted | process_pensions.py:576-594 | The balance and start dates are already in their formatted form. |
| Normalisers.CleanNameStripped | process_pensions.py:779-780 | A cleaned employer name is trimmed. |
| Normalisers.Present | process_pensions.py:781 | Keeps exactly the non-empty names. |
| Normalisers.EmployerNames | process_pensions.py:773-787 | No duplicates and no empty names. |
| Normalisers.EmployerNamesMembership | process_pensions.py:773-787 | A name is listed exactly when it is the non-empty cleaned form of some employer tag's value. |
| Normalisers.EmployerNamesTrimmed | process_pensions.py:773-787 | Every listed name is trimmed. |
| Normalisers.AddUnseenStep | process_pensions.py:778-784 | One more cleaned value is appended exactly when it is non-empty and unseen, and the seen set grows by it. |
| Normalisers.AddUnseen | process_pensions.py:778-784 | The inner loop appends the unseen non-empty names and grows `seen` by them. |
| Normalisers.DedupeExtends | process_pensions.py:776-784 | Deduplicating more values adds exactly those not already listed. |
| Normalisers.CollectEmployerNames | process_pensions.py:773-787 | `_collect_employer_names` returns `EmployerNames`. |
| Person.CustomerNode | process_pensions.py:303-315 | The first YeshutLakoach element when there is one, else the first Lakoach, else none. |
| Person.CleanId | process_pensions.py:322 | `lstrip('0') or raw`: only leading zeros are removed; a non-zero ID starts with a non-zero digit; an all-zero ID is kept. |
| Person.CleanIdIdempotent | process_pensions.py:322 | Cleaning an ID twice is cleaning it once. |
| Person.FullNameOf | process_pensions.py:333-335 | Both parts give first + " " + last; one part gives that part; none gives "". |
| Person.FullNameSplits | process_pensions.py:333-335 | For space-free parts, splitting the full name on spaces gives back the present parts. |
| Person.StreetPart | process_pensions.py:353-361 | The street, then " house", ", כניסה entrance" and ", דירה apartment" for each part that is present. |
| Person.AddressClauses | process_pensions.py:352-369 | Exactly the present clauses, in the order street clause, city, "מיקוד zip", country. |
| Person.Address | process_pensions.py:352-372 | The clauses joined with ", "; empty exactly when street, city, zip and country are all missing. |
| Person.GenderLabel | process_pensions.py:386-392 | Male exactly for "1", female exactly for "2", no label otherwise. |
| Person.Details | process_pensions.py:317-394 | Each key is present exactly when the source writes it. The gender label implies the gender code and agrees with it. |
| Person.DetailsValues | process_pensions.py:317-394 | Each present key holds its value: the identifier without leading zeros, the joined name, the formatted birth date, the composed address, the raw phone, mobile, e-mail and gender code, and the gender code's label. |
| Person.ExtractPersonDetails | process_pensions.py:297-394 | `_extract_person_details` returns `DocumentDetails`. |
| Person.DocumentDetails | process_pensions.py:297-394 | No customer element gives the empty dictionary; otherwise the details read from the customer element; a gender label always comes with its code. |
| Person.FillDetails | process_pensions.py:320-392 | The dictionary filled field by field is `Assemble`. |
| Extractor.ContainerMatchesMembership | process_pensions.py:179-182 | Tier 1 finds exactly the descendants carrying one of the ten container tags. |
| Extractor.ContainerMatchesAppend | process_pensions.py:180-181 | The matches are extended tag by tag, so they follow the order of the tag list. |
| Extractor.AccountLike | process_pensions.py:184-193 | Exactly the iterated elements with an account-like child. |
| Extractor.AccountLikeAppend | process_pensions.py:186-193 | The scan works element by element, so the accounts follow the `iter()` order. |
| Extractor.AccountNodes | process_pensions.py:179-199 | The three tiers: the tag-ordered container matches when any exist; else the account-like elements in `iter()` order; else the root alone when an account number occurs below it; else empty. Membership of each tier is stated too. |
| Extractor.HasAccountLikeChildOf | process_pensions.py:187-190 | The child loop decides `any(...)`. |
| Extractor.LocateAccounts | process_pensions.py:179-199 | The locator loops return `AccountNodes`. |
| Extractor.FindContainers | process_pensions.py:179-182 | The container loop returns the matches. |
| Extractor.FindAccountLike | process_pensions.py:184-193 | The `iter()` loop returns the account-like elements. |
| Extractor.OrUnknown | process_pensions.py:203-223 | Never empty: the first non-empty text, or "unknown" when every text is empty. |
| Extractor.OrUnknownOf | process_pensions.py:203-223 | The `or` chain returns `OrUnknown`. |
| Extractor.Discrepancy | process_pensions.py:247-252 | Zero exactly when the gap is within 0.5; otherwise the gap itself; either way it closes the balance against the components to within 0.5. |
| Extractor.AccountRecordFacts | process_pensions.py:241-279 | SHEM-YATZRAN overrides the company name, and a missing balance date reads "unknown". The components total is the sum of the two component sums. The gap is zero exactly within tolerance and otherwise restores the balance. The '.'-joined employers split back into the names. |
| Extractor.BuildAccount | process_pensions.py:201-279 | The loop body for one account builds `AccountFor`. |
| Extractor.FillAccount | process_pensions.py:241-279 | The sums, the snapped gap and the dictionary build `AccountRecordOf`. |
| Extractor.BaseName | process_pensions.py:291 | `os.path.basename`: the part after the last '/', which contains no '/'. |
| Extractor.Accounts | process_pensions.py:201-280 | One record per located account. |
| Extractor.AccountsSnoc | process_pensions.py:201-280 | Each loop iteration appends the record of the next account. |
| Extractor.AccountsAt | process_pensions.py:201-280 | The record at each position is the record built for the account element at that position. |
| Extractor.BuildAccounts | process_pensions.py:201-280 | The accounts loop returns `Accounts`. |
| Extractor.Extract | process_pensions.py:159-295 | The result names the file by its base name, holds at each position the record of the located account there, and carries the document's person details. |
| Extractor.BuildParentMap | process_pensions.py:153 | The comprehension over `iter()` builds `ParentMap`. |
| Extractor.LinkChildren | process_pensions.py:153 | One parent's children are mapped to it. |
| Extractor.PensionFileProcessor.constructor | process_pensions.py:131-135 | The path is stored, with no tree, no root and an empty parent index. |
| Extractor.PensionFileProcessor.LoadFile | process_pensions.py:146-157 | A failed parse leaves the state unchanged and returns false. A parsed tree is stored with its root and parent index. |
| Extractor.PensionFileProcessor.ExtractData | process_pensions.py:159-295 | On a loaded processor, the result is the base name, the accounts of the located account elements and the person details. |
| Extractor.PensionFileProcessor.Process | process_pensions.py:137-144 | The path is unchanged. A failed load gives `None` and leaves the state as it was; otherwise the tree is stored, the processor is loaded and the result is the extraction of the parsed tree. |

## Left out

- Reading the file, removing `\x1a` and XML parsing are left out. `LoadFile` takes the parse
  result as a parameter, `None` standing for a failed parse.
- Exception handling and logging are left out. An exception raised inside `_extract_data` is
  not modelled. The model's operations are total.
- The `processed_at` timestamp is left out, because it reads the clock.
- `process_directory`, `main` and `_format_float` are left out. They are I/O, or unused.
- Python float semantics are left out: IEEE rounding, `inf`/`nan`, underscores in numerals and
  non-ASCII digits. Amounts are exact reals.
- Text.IsDigits and Text.HasDigit: they accept only the ASCII digits '0' to '9', while Python's
  `str.isdigit()` also accepts other Unicode digits. So `FormatDate` leaves a full-width
  "２０２４０１０１" unchanged where `_format_date` (process_pensions.py:607) would reformat it, and
  the tier-5 scan (process_pensions.py:455) skips an element whose only digits are non-ASCII.
- ElementTree path matching is modelled only for the paths the code uses.
- `Text.Upper` and `Text.Lower` change ASCII letters only. The tags are ASCII, and the Hebrew
  keywords have no case.
- BalanceFields.SafeSumValues: the `int`, `float` and `list` branches are not modelled. The
  function is only ever called with a string or `None`.
- Dictionaries the code sums or displays are modelled in their iteration order: the tagmul and
  severance results are sequences of (column, amount) pairs. Collected tag fields are maps.
- Normalisers.PlanType: the plan type is computed as in the source but not stored, because the
  source drops it from the record as well.
- Extractor.BaseName: it splits on '/' only, so Windows paths are not modelled.
- Extractor.AccountFor: it has no contract of its own. Its facts are stated by
  `AccountRecordFacts` and by the contracts of the resolvers it composes. A single lemma over the
  whole composition is beyond the verifier's resource budget.
- Extractor.Accounts: its own contract gives only the length. `AccountsAt` states the record at
  each position, and `AccountsSnoc` states how the list grows.
- Normalisers.CleanName: Python's `strip('"')` and `strip("'")` are applied in turn, as written.
  So a name wrapped as `'"x"'` keeps its inner quotes. The model reproduces this rather than
  stripping every quote.
