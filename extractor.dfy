/**
 * `PensionFileProcessor` itself: locating the account elements of a loaded
 * document, assembling one record per account from the resolvers of the
 * other modules, and the processor object that holds the parsed tree and
 * its child-to-parent index.
 */
module Extractor {
  import opened Wrappers
  import opened Seqs
  import opened Text
  import opened Document
  import opened FieldResolver
  import opened BalanceFields
  import opened Tagmul
  import opened Balance
  import opened Product
  import opened Normalisers
  import opened Person
  import opened Tables

  /** Tier 1 of the account locator: element names that are accounts. */
  const AccountContainerTags: seq<string> := [
    "HeshbonOPolisa", "Heshbon", "Account", "Policy", "Polisa",
    "PensionAccount", "PensionPolicy", "KupatGemel", "BituachMenahalim", "KerenPensia"
  ]

  /** Tier 2: an element with a child of one of these names is an account. */
  const AccountLikeTags: seq<string> := [
    "MISPAR-POLISA-O-HESHBON", "MISPAR-HESHBON", "MISPAR-POLISA",
    "SHEM-YATZRAN", "YATZRAN", "SHEM-TOCHNIT", "TOCHNIT"
  ]

  /** Tier 3: the root is the account when one of these occurs below it. */
  const RootNumberTags: seq<string> := ["MISPAR-POLISA-O-HESHBON", "MISPAR-HESHBON", "MISPAR-POLISA"]

  const AccountNumberTags: seq<string> := [
    "MISPAR-POLISA-O-HESHBON", "MISPAR-HESHBON", "MISPAR-POLISA",
    "AccountNumber", "AccountId", "PolicyNumber"
  ]
  const CompanyTags: seq<string> := ["SHEM-YATZRAN", "YATZRAN", "SHEM_HA_MOSAD", "Company", "Provider"]

  /** The collected managing-company field that overrides the resolved name. */
  const CompanyNameKey: string := "SHEM-YATZRAN"

  // ---------------------------------------------------------------------------
  // The account locator
  // ---------------------------------------------------------------------------

  /** `root.findall('.//t')` for each tag `t` of `tags`, concatenated in tag order. */
  function ContainerMatches(d: Doc, root: nat, tags: seq<string>): seq<nat>
    decreases |tags|
  {
    if tags == [] then []
    else ContainerMatches(d, root, tags[..|tags| - 1]) + FindAll(d, root, tags[|tags| - 1])
  }

  /** Tier 1 finds exactly the descendants carrying one of the tags. */
  lemma {:induction false} ContainerMatchesMembership(d: Doc, root: nat, tags: seq<string>)
    ensures forall n :: n in ContainerMatches(d, root, tags) <==> n in Descendants(d, root) && Tag(d, n) in tags
    decreases |tags|
  {
    if tags != [] {
      var init := tags[..|tags| - 1];
      assert tags == init + [tags[|tags| - 1]];
      ContainerMatchesMembership(d, root, init);
    }
  }

  /** `any(child.tag in [...] for child in elem)`. */
  predicate HasAccountLikeChild(d: Doc, n: nat) {
    exists c :: c in Children(d, n) && Tag(d, c) in AccountLikeTags
  }

  /** The elements of `ids` with an account-like child, in order. */
  function AccountLike(d: Doc, ids: seq<nat>): (r: seq<nat>)
    ensures forall n :: n in r <==> n in ids && HasAccountLikeChild(d, n)
    decreases |ids|
  {
    if ids == [] then []
    else
      var n := ids[|ids| - 1];
      assert ids == ids[..|ids| - 1] + [n];
      AccountLike(d, ids[..|ids| - 1]) + (if HasAccountLikeChild(d, n) then [n] else [])
  }

  /** Tier 1 works name by name: the matches follow the order of the tag list. */
  lemma {:induction false} ContainerMatchesAppend(d: Doc, root: nat, a: seq<string>, b: seq<string>)
    ensures ContainerMatches(d, root, a + b) == ContainerMatches(d, root, a) + ContainerMatches(d, root, b)
    decreases |b|
  {
    if b == [] {
      assert a + b == a;
    } else {
      var init, last := b[..|b| - 1], b[|b| - 1];
      assert (a + b)[..|a + b| - 1] == a + init;
      assert (a + b)[|a + b| - 1] == last;
      assert ContainerMatches(d, root, a + b) == ContainerMatches(d, root, a + init) + FindAll(d, root, last);
      assert ContainerMatches(d, root, b) == ContainerMatches(d, root, init) + FindAll(d, root, last);
      ContainerMatchesAppend(d, root, a, init);
    }
  }

  /** Tier 2 works element by element: the accounts follow the order of `iter()`. */
  lemma {:induction false} AccountLikeAppend(d: Doc, a: seq<nat>, b: seq<nat>)
    ensures AccountLike(d, a + b) == AccountLike(d, a) + AccountLike(d, b)
    decreases |b|
  {
    if b == [] {
      assert a + b == a;
    } else {
      var init := b[..|b| - 1];
      assert (a + b)[..|a + b| - 1] == a + init;
      assert (a + b)[|a + b| - 1] == b[|b| - 1];
      AccountLikeAppend(d, a, init);
    }
  }

  /** Whether an account-number element occurs anywhere below `root`. */
  predicate RootHasNumber(d: Doc, root: nat) {
    FindFirst(d, root, RootNumberTags[0]).Some?
    || FindFirst(d, root, RootNumberTags[1]).Some?
    || FindFirst(d, root, RootNumberTags[2]).Some?
  }

  /**
   * The account elements below `root`: the container-named descendants when
   * there are any; else every element (the root included) with an
   * account-like child; else the root alone when an account number occurs
   * below it; else none.
   */
  function AccountNodes(d: Doc, root: nat): (r: seq<nat>)
    ensures forall n :: n in r ==> n in Iter(d, root)
    ensures (exists n :: n in Descendants(d, root) && Tag(d, n) in AccountContainerTags)
      ==> forall n :: n in r <==> n in Descendants(d, root) && Tag(d, n) in AccountContainerTags
    ensures (forall n :: n in Descendants(d, root) ==> Tag(d, n) !in AccountContainerTags)
      ==> forall n :: n in r <==>
            ((n in Iter(d, root) && HasAccountLikeChild(d, n))
             || (n == root && RootHasNumber(d, root) && forall m :: m in Iter(d, root) ==> !HasAccountLikeChild(d, m)))
    ensures r == [] <==>
      (forall n :: n in Iter(d, root) ==> Tag(d, n) !in AccountContainerTags || n == root)
      && (forall n :: n in Iter(d, root) ==> !HasAccountLikeChild(d, n))
      && !RootHasNumber(d, root)
    ensures ContainerMatches(d, root, AccountContainerTags) != [] ==> r == ContainerMatches(d, root, AccountContainerTags)
    ensures (ContainerMatches(d, root, AccountContainerTags) == [] && AccountLike(d, Iter(d, root)) != [])
              ==> r == AccountLike(d, Iter(d, root))
    ensures (ContainerMatches(d, root, AccountContainerTags) == [] && AccountLike(d, Iter(d, root)) == [])
              ==> r == (if RootHasNumber(d, root) then [root] else [])
  {
    ContainerMatchesMembership(d, root, AccountContainerTags);
    var containers := ContainerMatches(d, root, AccountContainerTags);
    var ids := Iter(d, root);
    IterIsSelfAndDescendants(d, root);
    if containers != [] then
      assert containers[0] in containers;
      containers
    else
      var accountLike := AccountLike(d, ids);
      if accountLike != [] then
        assert accountLike[0] in accountLike;
        accountLike
      else if RootHasNumber(d, root) then
        RootInIter(d, root);
        [root]
      else []
  }

  /** `elem.iter()` is the element followed by its descendants. */
  lemma IterIsSelfAndDescendants(d: Doc, i: nat)
    ensures forall n :: n in Iter(d, i) <==> (n == i && i < |d.nodes|) || n in Descendants(d, i)
  {
  }

  /** An account number below the root means the root is an element of the document. */
  lemma RootInIter(d: Doc, root: nat)
    requires RootHasNumber(d, root)
    ensures root in Iter(d, root)
  {
    var t :| t in RootNumberTags && FindFirst(d, root, t).Some?;
    var n := FindFirst(d, root, t).value;
    assert n in FindAll(d, root, t);
    assert root < n < |d.nodes|;
  }

  /** `any(child.tag in AccountLikeTags for child in elem)`, as the loop. */
  method HasAccountLikeChildOf(d: Doc, n: nat) returns (found: bool)
    ensures found == HasAccountLikeChild(d, n)
  {
    var cs := Children(d, n);
    for j := 0 to |cs|
      invariant forall i :: 0 <= i < j ==> Tag(d, cs[i]) !in AccountLikeTags
    {
      if Tag(d, cs[j]) in AccountLikeTags {
        return true;
      }
    }
    return false;
  }

  /** The account-locating part of `_extract_data()`. */
  method LocateAccounts(d: Doc, root: nat) returns (nodes: seq<nat>)
    ensures nodes == AccountNodes(d, root)
  {
    nodes := FindContainers(d, root, AccountContainerTags);
    if nodes == [] {
      nodes := FindAccountLike(d, Iter(d, root));
    }
    if nodes == [] && RootHasNumber(d, root) {
      nodes := [root];
    }
  }

  /** Tier 1: `account_nodes.extend(root.findall('.//' + name))` for each name. */
  method FindContainers(d: Doc, root: nat, tags: seq<string>) returns (nodes: seq<nat>)
    ensures nodes == ContainerMatches(d, root, tags)
  {
    nodes := [];
    for k := 0 to |tags|
      invariant nodes == ContainerMatches(d, root, tags[..k])
    {
      assert tags[..k + 1][..k] == tags[..k];
      nodes := nodes + FindAll(d, root, tags[k]);
    }
    assert tags[..|tags|] == tags;
  }

  /** Tier 2: the elements of `ids` with an account-like child. */
  method FindAccountLike(d: Doc, ids: seq<nat>) returns (nodes: seq<nat>)
    ensures nodes == AccountLike(d, ids)
  {
    nodes := [];
    for k := 0 to |ids|
      invariant nodes == AccountLike(d, ids[..k])
    {
      assert ids[..k + 1][..k] == ids[..k];
      var found := HasAccountLikeChildOf(d, ids[k]);
      if found {
        nodes := nodes + [ids[k]];
      }
    }
    assert ids[..|ids|] == ids;
  }

  // ---------------------------------------------------------------------------
  // One account
  // ---------------------------------------------------------------------------

  /** `_get_text(a, t1) or _get_text(a, t2) or ... or 'לא ידוע'`, over the texts the tags give. */
  function OrUnknown(texts: seq<string>): (r: string)
    ensures r != ""
    ensures (forall k :: 0 <= k < |texts| ==> texts[k] == "") ==> r == Unknown
    ensures r != Unknown ==> exists k :: 0 <= k < |texts| && r == texts[k] && forall j :: 0 <= j < k ==> texts[j] == ""
    ensures forall k :: 0 <= k < |texts| && texts[k] != "" && (forall j :: 0 <= j < k ==> texts[j] == "") ==> r == texts[k]
  {
    var first := FirstNonEmpty(texts);
    assert forall k :: 0 <= k < |texts| && texts[k] != "" && (forall j :: 0 <= j < k ==> texts[j] == "") ==> first == texts[k] by {
      forall k | 0 <= k < |texts| && texts[k] != "" && (forall j :: 0 <= j < k ==> texts[j] == "")
        ensures first == texts[k]
      {
        FirstNonEmptyAt(texts, k);
      }
    }
    if first != "" then first else Unknown
  }

  /** The fallback chain as the code runs it. */
  method OrUnknownOf(texts: seq<string>) returns (value: string)
    ensures value == OrUnknown(texts)
  {
    value := FirstNonEmptyOf(texts);
    if value == "" {
      value := Unknown;
    }
  }

  function Abs(x: real): real {
    if x < 0.0 then -x else x
  }

  /**
   * The balance gap: the balance less the components total, snapped to
   * exactly 0.0 when within the tolerance.
   */
  function Discrepancy(balance: real, components: real): (r: real)
    ensures r == 0.0 <==> Abs(balance - components) <= BalanceTolerance
    ensures r != 0.0 ==> r == balance - components && Abs(r) > BalanceTolerance
    ensures Abs(balance - (components + r)) <= BalanceTolerance
  {
    var diff := balance - components;
    if Abs(diff) <= BalanceTolerance then 0.0 else diff
  }

  /** The dictionary built for one account. */
  datatype AccountRecord = AccountRecord(
    number: string,
    plan: string,
    company: string,
    companyCode: string,
    balance: real,
    balanceDate: string,
    startDate: string,
    productType: string,
    employers: string,
    companyFields: map<string, string>,
    planTypeFields: map<string, string>,
    balanceFields: map<string, string>,
    tagmulPeriods: seq<(string, real)>,
    severance: seq<(string, real)>,
    tagmulTotal: real,
    severanceTotal: real,
    componentTotal: real,
    discrepancy: real,
    employerNames: seq<string>)

  /** The record from the values the resolvers give for one account. */
  function AccountRecordOf(number: string, plan: string, managing: (string, string), balance: real,
                           balanceDate: string, startDate: string, productType: string,
                           companyFields: map<string, string>, planTypeFields: map<string, string>,
                           balanceFields: map<string, string>, tagmul: seq<(string, real)>,
                           severance: seq<(string, real)>, employerNames: seq<string>): AccountRecord
  {
    var tagmulTotal := SumColumns(tagmul);
    var severanceTotal := SumColumns(severance);
    var componentTotal := tagmulTotal + severanceTotal;
    AccountRecord(
      number, plan,
      if CompanyNameKey in companyFields then companyFields[CompanyNameKey] else managing.0,
      managing.1, balance,
      if balanceDate != "" then balanceDate else Unknown,
      startDate, productType, Join(".", employerNames),
      companyFields, planTypeFields, balanceFields, tagmul, severance,
      tagmulTotal, severanceTotal, componentTotal, Discrepancy(balance, componentTotal),
      employerNames)
  }

  /**
   * What the record holds: the collected SHEM-YATZRAN field overrides the
   * resolved company name, a missing balance date reads 'לא ידוע', the
   * components total is the sum of the contribution periods and the
   * severance components, the gap is zero exactly when balance and
   * components agree to within the tolerance and otherwise closes the
   * difference, and the '.'-joined employers split back into the names when
   * no name contains a '.'.
   */
  lemma AccountRecordFacts(number: string, plan: string, managing: (string, string), balance: real,
                           balanceDate: string, startDate: string, productType: string,
                           companyFields: map<string, string>, planTypeFields: map<string, string>,
                           balanceFields: map<string, string>, tagmul: seq<(string, real)>,
                           severance: seq<(string, real)>, employerNames: seq<string>)
    ensures var r := AccountRecordOf(number, plan, managing, balance, balanceDate, startDate, productType,
                                     companyFields, planTypeFields, balanceFields, tagmul, severance,
                                     employerNames);
      && (CompanyNameKey in companyFields ==> r.company == companyFields[CompanyNameKey])
      && (CompanyNameKey !in companyFields ==> r.company == managing.0)
      && r.balanceDate != "" && (balanceDate != "" ==> r.balanceDate == balanceDate)
      && r.componentTotal == SumColumns(tagmul) + SumColumns(severance)
      && (r.discrepancy == 0.0 <==> Abs(balance - r.componentTotal) <= BalanceTolerance)
      && (r.discrepancy != 0.0 ==> r.discrepancy + r.componentTotal == balance)
      && (employerNames != [] && (forall k :: 0 <= k < |employerNames| ==> '.' !in employerNames[k])
          ==> Split(r.employers, '.') == employerNames)
  {
    if employerNames != [] && (forall k :: 0 <= k < |employerNames| ==> '.' !in employerNames[k]) {
      SplitJoin(employerNames, '.');
    }
  }

  /** The record `_extract_data()` builds for the account element `account`. */
  function AccountFor(d: Doc, parent: map<nat, nat>, account: nat): AccountRecord {
    var company := OrUnknown(ChildTexts(d, account, CompanyTags));
    AccountRecordOf(
      OrUnknown(ChildTexts(d, account, AccountNumberTags)),
      OrUnknown(ChildTexts(d, account, PlanNameTags)),
      ManagingCompany(d, parent, account, company),
      Balance.Balance(d, account),
      BalanceDate(d, account),
      StartDate(d, account),
      ProductType(d, parent, account),
      SpecificTags(d, parent, account, ManagingCompanyTags, true),
      SpecificTags(d, parent, account, PlanTypeTags, false),
      BalanceRelated(d, account),
      TagmulPeriods(d, account),
      Severance(BalanceRelated(d, account)),
      EmployerNames(d, parent, account))
  }

  /** The body of the accounts loop of `_extract_data()` for one account element. */
  method BuildAccount(d: Doc, parent: map<nat, nat>, account: nat) returns (acc: AccountRecord)
    ensures acc == AccountFor(d, parent, account)
  {
    var number := OrUnknownOf(ChildTexts(d, account, AccountNumberTags));
    var company := OrUnknownOf(ChildTexts(d, account, CompanyTags));
    var plan := OrUnknownOf(ChildTexts(d, account, PlanNameTags));
    var planType := GetPlanType(d, account);
    var balance := FindBalance(d, account);
    var balanceDate := GetBalanceDate(d, account);
    var companyName, companyCode := GetManagingCompany(d, parent, account, company);
    var companyFields := CollectSpecificTags(d, parent, account, ManagingCompanyTags, true);
    var planTypeFields := CollectSpecificTags(d, parent, account, PlanTypeTags, false);
    var balanceFields := CollectBalanceRelatedFields(d, account);
    var tagmul := CollectTagmulPeriods(d, account);
    var severance := ExtractSeveranceComponents(balanceFields);
    var employerNames := CollectEmployerNames(d, parent, account);
    var startDate := StartDate(d, account);
    var productType := GetProductType(d, parent, account);
    acc := FillAccount(number, plan, companyName, companyCode, balance, balanceDate, startDate, productType,
                       companyFields, planTypeFields, balanceFields, tagmul, severance, employerNames);
  }

  /** The rest of the loop body once the resolvers have run: the totals, the gap and the dictionary. */
  method FillAccount(number: string, plan: string, companyName: string, companyCode: string, balance: real,
                     balanceDate: string, startDate: string, productType: string,
                     companyFields: map<string, string>, planTypeFields: map<string, string>,
                     balanceFields: map<string, string>, tagmul: seq<(string, real)>,
                     severance: seq<(string, real)>, employerNames: seq<string>) returns (acc: AccountRecord)
    ensures acc == AccountRecordOf(number, plan, (companyName, companyCode), balance, balanceDate, startDate,
                                   productType, companyFields, planTypeFields, balanceFields, tagmul, severance,
                                   employerNames)
  {
    var tagmulTotal := SumColumns(tagmul);
    var severanceTotal := SumColumns(severance);
    var componentTotal := tagmulTotal + severanceTotal;
    var diff := balance - componentTotal;
    if Abs(diff) <= BalanceTolerance {
      diff := 0.0;
    }
    acc := AccountRecord(
      number, plan,
      if CompanyNameKey in companyFields then companyFields[CompanyNameKey] else companyName,
      companyCode, balance,
      if balanceDate != "" then balanceDate else Unknown,
      startDate, productType, Join(".", employerNames),
      companyFields, planTypeFields, balanceFields, tagmul, severance,
      tagmulTotal, severanceTotal, componentTotal, diff, employerNames);
  }

  // ---------------------------------------------------------------------------
  // The whole document
  // ---------------------------------------------------------------------------

  /** `os.path.basename(path)`: what follows the last '/'. */
  function BaseName(path: string): (r: string)
    ensures '/' !in r
    ensures |r| <= |path| && r == path[|path| - |r|..]
    ensures |r| < |path| ==> path[|path| - |r| - 1] == '/'
    decreases |path|
  {
    if path == [] then []
    else if path[|path| - 1] == '/' then []
    else
      var init := path[..|path| - 1];
      var rest := BaseName(init);
      assert path[|path| - |rest| - 1..] == init[|init| - |rest|..] + [path[|path| - 1]];
      rest + [path[|path| - 1]]
  }

  /** The result of `process()`, without the processing timestamp. */
  datatype Extraction = Extraction(file: string, accounts: seq<AccountRecord>, personDetails: PersonDetails)

  /** One record per account element, in order. */
  function Accounts(d: Doc, parent: map<nat, nat>, nodes: seq<nat>): (r: seq<AccountRecord>)
    ensures |r| == |nodes|
    decreases |nodes|
  {
    if nodes == [] then []
    else Accounts(d, parent, nodes[..|nodes| - 1]) + [AccountFor(d, parent, nodes[|nodes| - 1])]
  }

  /** The record at each position is the record of the account element there. */
  lemma {:induction false} AccountsAt(d: Doc, parent: map<nat, nat>, nodes: seq<nat>, k: nat)
    requires k < |nodes|
    ensures Accounts(d, parent, nodes)[k] == AccountFor(d, parent, nodes[k])
    decreases |nodes|
  {
    var init := nodes[..|nodes| - 1];
    var rest := Accounts(d, parent, init);
    assert Accounts(d, parent, nodes) == rest + [AccountFor(d, parent, nodes[|nodes| - 1])];
    if k < |nodes| - 1 {
      AccountsAt(d, parent, init, k);
      assert init[k] == nodes[k];
    }
  }

  /** `_extract_data()` on the document `d` loaded from `path`. */
  function Extract(path: string, d: Doc): (r: Extraction)
    ensures r.file == BaseName(path)
    ensures |r.accounts| == |AccountNodes(d, Root)|
    ensures forall k :: 0 <= k < |r.accounts| ==> r.accounts[k] == AccountFor(d, ParentMap(d), AccountNodes(d, Root)[k])
    ensures r.personDetails == DocumentDetails(d)
  {
    var nodes := AccountNodes(d, Root);
    assert forall k :: 0 <= k < |nodes| ==> Accounts(d, ParentMap(d), nodes)[k] == AccountFor(d, ParentMap(d), nodes[k]) by {
      forall k | 0 <= k < |nodes| {
        AccountsAt(d, ParentMap(d), nodes, k);
      }
    }
    Extraction(BaseName(path), Accounts(d, ParentMap(d), nodes), DocumentDetails(d))
  }

  /** The accounts loop of `_extract_data()`. */
  method BuildAccounts(d: Doc, parent: map<nat, nat>, nodes: seq<nat>) returns (accounts: seq<AccountRecord>)
    ensures accounts == Accounts(d, parent, nodes)
  {
    accounts := [];
    for k := 0 to |nodes|
      invariant accounts == Accounts(d, parent, nodes[..k])
    {
      var acc := BuildAccount(d, parent, nodes[k]);
      AccountsSnoc(d, parent, nodes, k);
      accounts := accounts + [acc];
    }
    assert nodes[..|nodes|] == nodes;
  }

  /** The records of one more account element are those before it and its own. */
  lemma AccountsSnoc(d: Doc, parent: map<nat, nat>, nodes: seq<nat>, k: nat)
    requires k < |nodes|
    ensures Accounts(d, parent, nodes[..k + 1]) == Accounts(d, parent, nodes[..k]) + [AccountFor(d, parent, nodes[k])]
  {
    assert nodes[..k + 1][..k] == nodes[..k];
  }

  /** The parent-map comprehension of `_load_file()`, as its two nested loops. */
  method BuildParentMap(d: Doc) returns (parent: map<nat, nat>)
    ensures parent == ParentMap(d)
  {
    var ids := Iter(d, Root);
    parent := map[];
    for k := 0 to |ids|
      invariant parent == ParentsOf(d, ids[..k])
    {
      assert ids[..k + 1][..k] == ids[..k];
      parent := LinkChildren(parent, ids[k], Children(d, ids[k]));
    }
    assert ids[..|ids|] == ids;
  }

  /** The inner loop: each of `cs` gets `p` as its parent. */
  method LinkChildren(links: map<nat, nat>, p: nat, cs: seq<nat>) returns (updated: map<nat, nat>)
    ensures updated == links + map c | c in cs :: p
  {
    updated := links;
    for j := 0 to |cs|
      invariant updated == links + map c | c in cs[..j] :: p
    {
      assert cs[..j + 1] == cs[..j] + [cs[j]];
      updated := updated[cs[j] := p];
    }
    assert cs[..|cs|] == cs;
  }

  /** The processor of one pension file. */
  class PensionFileProcessor {
    var filePath: string
    var tree: Option<Doc>
    var root: Option<nat>
    var parentMap: map<nat, nat>

    constructor (path: string)
      ensures filePath == path && tree == None && root == None && parentMap == map[]
    {
      filePath := path;
      tree := None;
      root := None;
      parentMap := map[];
    }

    /** The state `_load_file()` leaves behind when it succeeds. */
    predicate Loaded()
      reads this
    {
      tree.Some? && root == Some(Root) && parentMap == ParentMap(tree.value)
    }

    /**
     * `_load_file()`, given the outcome of reading and parsing the file:
     * None when either failed, which leaves the processor as it was.
     */
    method LoadFile(parsed: Option<Doc>) returns (loaded: bool)
      modifies this
      ensures loaded == parsed.Some?
      ensures filePath == old(filePath)
      ensures parsed.None? ==> tree == old(tree) && root == old(root) && parentMap == old(parentMap)
      ensures parsed.Some? ==> tree == parsed && Loaded()
    {
      if parsed.None? {
        return false;
      }
      tree := parsed;
      root := Some(Root);
      parentMap := BuildParentMap(parsed.value);
      return true;
    }

    /** `_extract_data()` on the loaded document. */
    method ExtractData() returns (result: Extraction)
      requires Loaded()
      ensures result == Extract(filePath, tree.value)
    {
      var d := tree.value;
      var personDetails := ExtractPersonDetails(d);
      var nodes := LocateAccounts(d, root.value);
      var accounts := BuildAccounts(d, parentMap, nodes);
      result := Extraction(BaseName(filePath), accounts, personDetails);
    }

    /** `process()`: None when the file could not be loaded. */
    method Process(parsed: Option<Doc>) returns (result: Option<Extraction>)
      modifies this
      ensures filePath == old(filePath)
      ensures parsed.None? ==> result.None?
      ensures parsed.None? ==> tree == old(tree) && root == old(root) && parentMap == old(parentMap)
      ensures parsed.Some? ==> result == Some(Extract(filePath, parsed.value)) && tree == parsed && Loaded()
    {
      var loaded := LoadFile(parsed);
      if !loaded {
        return None;
      }
      var data := ExtractData();
      return Some(data);
    }
  }
}
