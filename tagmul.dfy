/**
 * Contributions by period (`_collect_tagmul_periods`): a 2 x 3 grid of
 * employee/employer by before-2000, after-2000 and after-2008-non-paying
 * buckets. A primary pass reads the per-period balance rows; when some role
 * got no primary data, a fallback pass credits deposit totals to that role's
 * after-2000 bucket. The nonzero buckets are emitted in column order.
 */
module Tagmul {
  import opened Wrappers
  import opened Document
  import opened FieldResolver
  import opened BalanceFields
  import opened Tables

  /**
   * What one primary row contributes: its bucket and amount, or None when the
   * amount is missing or the REKIV or TECHULAT code is not in its table.
   */
  function PrimaryRow(d: Doc, p: nat): (r: Option<(Bucket, real)>)
    ensures r.Some? <==> && GetFloat(d, p, "SACH-ITRA-LESHICHVA-BESHACH").Some?
                         && GetText(d, p, "REKIV-ITRA-LETKUFA", "") in TagmulRoleByRekiv
                         && GetText(d, p, "KOD-TECHULAT-SHICHVA", "") in TechulatCodePeriod
    ensures r.Some? ==> r.value.1 == GetFloat(d, p, "SACH-ITRA-LESHICHVA-BESHACH").value
    ensures r.Some? ==> r.value.0.role == TagmulRoleByRekiv[GetText(d, p, "REKIV-ITRA-LETKUFA", "")]
    ensures r.Some? ==> r.value.0.period == TechulatCodePeriod[GetText(d, p, "KOD-TECHULAT-SHICHVA", "")]
  {
    var rekiv := GetText(d, p, "REKIV-ITRA-LETKUFA", "");
    var techulat := GetText(d, p, "KOD-TECHULAT-SHICHVA", "");
    var amount := GetFloat(d, p, "SACH-ITRA-LESHICHVA-BESHACH");
    if amount.None? then None
    else if rekiv !in TagmulRoleByRekiv then None
    else if techulat !in TechulatCodePeriod then None
    else Some((Bucket(TagmulRoleByRekiv[rekiv], TechulatCodePeriod[techulat]), amount.value))
  }

  /** What one fallback row offers: its KOD-SUG-HAFRASHA code and amount, or None. */
  function SecondaryRow(d: Doc, y: nat): (r: Option<(string, real)>)
    ensures r.Some? ==> r.value.0 != ""
    ensures r.Some? <==> GetFloat(d, y, "TOTAL-CHISACHON-MTZBR").Some? && GetText(d, y, "KOD-SUG-HAFRASHA", "") != ""
    ensures r.Some? ==> r.value == (GetText(d, y, "KOD-SUG-HAFRASHA", ""), GetFloat(d, y, "TOTAL-CHISACHON-MTZBR").value)
  {
    var sug := GetText(d, y, "KOD-SUG-HAFRASHA", "");
    var amount := GetFloat(d, y, "TOTAL-CHISACHON-MTZBR");
    if amount.None? || sug == "" then None else Some((sug, amount.value))
  }

  /**
   * The role a fallback code credits, given the roles that already have
   * primary data: the employee codes are tried first, then the employer codes.
   */
  function SecondaryRole(sug: string, covered: set<Role>): (r: Option<Role>)
    ensures r.Some? ==> r.value !in covered
    ensures r == Some(Employee) <==> Employee !in covered && sug in EmployeeSugCodes
    ensures r == Some(Employer) <==> Employer !in covered && sug in EmployerSugCodes
  {
    if Employee !in covered && sug in EmployeeSugCodes then Some(Employee)
    else if Employer !in covered && sug in EmployerSugCodes then Some(Employer)
    else None
  }

  /** The amounts the primary rows put into bucket `b`. */
  function PrimaryTotal(rows: seq<Option<(Bucket, real)>>, b: Bucket): real
    decreases |rows|
  {
    if rows == [] then 0.0
    else
      var last := rows[|rows| - 1];
      PrimaryTotal(rows[..|rows| - 1], b) + (if last.Some? && last.value.0 == b then last.value.1 else 0.0)
  }

  /** The roles that received primary data (`has_period_data`). */
  function Covered(rows: seq<Option<(Bucket, real)>>): set<Role>
    decreases |rows|
  {
    if rows == [] then {}
    else
      var last := rows[|rows| - 1];
      Covered(rows[..|rows| - 1]) + (if last.Some? then {last.value.0.role} else {})
  }

  /** The amounts the fallback rows credit to bucket `b`. */
  function SecondaryTotal(rows: seq<Option<(string, real)>>, covered: set<Role>, b: Bucket): real
    decreases |rows|
  {
    if rows == [] then 0.0
    else
      var last := rows[|rows| - 1];
      var credited := last.Some? && b.period == After2000 && SecondaryRole(last.value.0, covered) == Some(b.role);
      SecondaryTotal(rows[..|rows| - 1], covered, b) + (if credited then last.value.1 else 0.0)
  }

  /** Whether the fallback pass runs: some role got no primary data. */
  predicate NeedsFallback(covered: set<Role>) {
    !(Employee in covered && Employer in covered)
  }

  /** A bucket's final total. */
  function BucketTotal(primary: seq<Option<(Bucket, real)>>, secondary: seq<Option<(string, real)>>, b: Bucket): real {
    var covered := Covered(primary);
    PrimaryTotal(primary, b) + (if NeedsFallback(covered) then SecondaryTotal(secondary, covered, b) else 0.0)
  }

  /**
   * The emitted columns: for each bucket of `buckets` in order, its column
   * name and total, when the total is nonzero.
   */
  function Emit(buckets: seq<Bucket>, totals: map<Bucket, real>): (r: seq<(string, real)>)
    requires forall b :: b in buckets ==> b in totals
    ensures |r| <= |buckets|
    ensures forall k :: 0 <= k < |r| ==> r[k].1 != 0.0
    ensures forall k :: 0 <= k < |r| ==> exists b :: b in buckets && r[k] == (TagmulColumn(b), totals[b])
    ensures forall b :: b in buckets && totals[b] != 0.0 ==> (TagmulColumn(b), totals[b]) in r
    decreases |buckets|
  {
    if buckets == [] then []
    else
      var init := buckets[..|buckets| - 1];
      var b := buckets[|buckets| - 1];
      assert forall x :: x in init ==> x in buckets;
      Emit(init, totals) + (if totals[b] != 0.0 then [(TagmulColumn(b), totals[b])] else [])
  }

  /**
   * Emitting works bucket by bucket, so the columns come out in the order of
   * `buckets`; with the one-bucket case (its column when the total is
   * nonzero, else nothing) this fixes the result.
   */
  lemma {:induction false} EmitAppend(a: seq<Bucket>, b: seq<Bucket>, totals: map<Bucket, real>)
    requires forall x :: x in a + b ==> x in totals
    ensures forall x :: x in a ==> x in totals
    ensures forall x :: x in b ==> x in totals
    ensures Emit(a + b, totals) == Emit(a, totals) + Emit(b, totals)
    decreases |b|
  {
    assert forall x :: x in a ==> x in a + b;
    assert forall x :: x in b ==> x in a + b;
    if b == [] {
      assert a + b == a;
    } else {
      var init := b[..|b| - 1];
      assert (a + b)[..|a + b| - 1] == a + init;
      assert (a + b)[|a + b| - 1] == b[|b| - 1];
      assert forall x :: x in a + init ==> x in a + b;
      assert forall x :: x in init ==> x in b;
      EmitAppend(a, init, totals);
    }
  }

  /** The primary rows read from the nodes `periods`. */
  function PrimaryRowsOf(d: Doc, periods: seq<nat>): (r: seq<Option<(Bucket, real)>>)
    ensures |r| == |periods| && forall k :: 0 <= k < |periods| ==> r[k] == PrimaryRow(d, periods[k])
  {
    seq(|periods|, k requires 0 <= k < |periods| => PrimaryRow(d, periods[k]))
  }

  /** The fallback rows read from the nodes `yitrot`. */
  function SecondaryRowsOf(d: Doc, yitrot: seq<nat>): (r: seq<Option<(string, real)>>)
    ensures |r| == |yitrot| && forall k :: 0 <= k < |yitrot| ==> r[k] == SecondaryRow(d, yitrot[k])
  {
    seq(|yitrot|, k requires 0 <= k < |yitrot| => SecondaryRow(d, yitrot[k]))
  }

  /** `findall('.//BlockItrot//PerutYitraLeTkufa')`. */
  function PeriodNodes(d: Doc, account: nat): seq<nat> {
    Select(d, [account], ["BlockItrot", "PerutYitraLeTkufa"])
  }

  /** `findall('.//BlockItrot//PerutYitrot')`. */
  function YitrotNodes(d: Doc, account: nat): seq<nat> {
    Select(d, [account], ["BlockItrot", "PerutYitrot"])
  }

  /** The grid of bucket totals. */
  function Grid(primary: seq<Option<(Bucket, real)>>, secondary: seq<Option<(string, real)>>): (r: map<Bucket, real>)
    ensures forall b :: b in r <==> b in TagmulBuckets
  {
    map b | b in TagmulBuckets :: BucketTotal(primary, secondary, b)
  }

  /** `_collect_tagmul_periods`, as a value. */
  function TagmulPeriods(d: Doc, account: nat): (r: seq<(string, real)>)
    ensures var grid := Grid(PrimaryRowsOf(d, PeriodNodes(d, account)), SecondaryRowsOf(d, YitrotNodes(d, account)));
      SumColumns(r) == SumBuckets(TagmulBuckets, grid)
  {
    var grid := Grid(PrimaryRowsOf(d, PeriodNodes(d, account)), SecondaryRowsOf(d, YitrotNodes(d, account)));
    EmitKeepsSum(TagmulBuckets, grid);
    Emit(TagmulBuckets, grid)
  }

  /** Every bucket has a column. */
  lemma EveryBucketListed(b: Bucket)
    ensures b in TagmulBuckets
  {
    match b
    case Bucket(Employee, Before2000) => assert TagmulBuckets[0] == b;
    case Bucket(Employee, After2000) => assert TagmulBuckets[1] == b;
    case Bucket(Employee, After2008NonPaying) => assert TagmulBuckets[2] == b;
    case Bucket(Employer, Before2000) => assert TagmulBuckets[3] == b;
    case Bucket(Employer, After2000) => assert TagmulBuckets[4] == b;
    case Bucket(Employer, After2008NonPaying) => assert TagmulBuckets[5] == b;
  }

  /** The roles flagged true in `has_period_data`. */
  function Flagged(hasPeriodData: map<Role, bool>): set<Role> {
    set r | r in hasPeriodData && hasPeriodData[r]
  }

  /** One more primary row, as the primary loop body adds it. */
  lemma PrimaryStep(rows: seq<Option<(Bucket, real)>>, k: nat)
    requires k < |rows|
    ensures forall b :: PrimaryTotal(rows[..k + 1], b)
                     == PrimaryTotal(rows[..k], b) + (if rows[k].Some? && rows[k].value.0 == b then rows[k].value.1 else 0.0)
    ensures Covered(rows[..k + 1]) == Covered(rows[..k]) + (if rows[k].Some? then {rows[k].value.0.role} else {})
  {
    assert rows[..k + 1][..k] == rows[..k];
  }

  /** One more fallback row, as the fallback loop body adds it. */
  lemma SecondaryStep(rows: seq<Option<(string, real)>>, covered: set<Role>, k: nat)
    requires k < |rows|
    ensures forall b :: SecondaryTotal(rows[..k + 1], covered, b)
                     == SecondaryTotal(rows[..k], covered, b)
                        + (if rows[k].Some? && b.period == After2000 && SecondaryRole(rows[k].value.0, covered) == Some(b.role)
                           then rows[k].value.1 else 0.0)
  {
    assert rows[..k + 1][..k] == rows[..k];
  }

  lemma FlaggedSet(hasPeriodData: map<Role, bool>, r: Role)
    ensures Flagged(hasPeriodData[r := true]) == Flagged(hasPeriodData) + {r}
  {
  }

  /** The primary pass over the decoded rows: totals per bucket and the roles that received data. */
  method PrimaryPass(rows: seq<Option<(Bucket, real)>>) returns (totals: map<Bucket, real>, hasPeriodData: map<Role, bool>)
    ensures forall b :: b in totals <==> b in TagmulBuckets
    ensures forall b :: b in totals ==> totals[b] == PrimaryTotal(rows, b)
    ensures Employee in hasPeriodData && Employer in hasPeriodData
    ensures Flagged(hasPeriodData) == Covered(rows)
  {
    totals := map b | b in TagmulBuckets :: 0.0;
    hasPeriodData := map[Employee := false, Employer := false];
    for k := 0 to |rows|
      invariant forall b :: b in totals <==> b in TagmulBuckets
      invariant forall b :: b in totals ==> totals[b] == PrimaryTotal(rows[..k], b)
      invariant Employee in hasPeriodData && Employer in hasPeriodData
      invariant Flagged(hasPeriodData) == Covered(rows[..k])
    {
      PrimaryStep(rows, k);
      var row := rows[k];
      if row.None? {
        continue;
      }
      var (bucket, amount) := row.value;
      EveryBucketListed(bucket);
      FlaggedSet(hasPeriodData, bucket.role);
      hasPeriodData := hasPeriodData[bucket.role := true];
      totals := totals[bucket := totals[bucket] + amount];
    }
    assert rows[..|rows|] == rows;
  }

  /** The fallback pass over the decoded rows: credits deposit totals to the after-2000 bucket of a role without primary data. */
  method SecondaryPass(rows: seq<Option<(string, real)>>, totals0: map<Bucket, real>, hasPeriodData: map<Role, bool>)
    returns (totals: map<Bucket, real>)
    requires Employee in hasPeriodData && Employer in hasPeriodData
    requires forall b :: b in totals0 <==> b in TagmulBuckets
    ensures forall b :: b in totals <==> b in TagmulBuckets
    ensures forall b :: b in totals ==> totals[b] == totals0[b] + SecondaryTotal(rows, Flagged(hasPeriodData), b)
  {
    ghost var covered := Flagged(hasPeriodData);
    totals := totals0;
    for k := 0 to |rows|
      invariant forall b :: b in totals <==> b in TagmulBuckets
      invariant forall b :: b in totals ==> totals[b] == totals0[b] + SecondaryTotal(rows[..k], covered, b)
    {
      SecondaryStep(rows, covered, k);
      var row := rows[k];
      if row.None? {
        continue;
      }
      var (sug, amount) := row.value;
      var role: Option<Role> := None;
      if !hasPeriodData[Employee] && sug in EmployeeSugCodes {
        role := Some(Employee);
      } else if !hasPeriodData[Employer] && sug in EmployerSugCodes {
        role := Some(Employer);
      }
      assert role == SecondaryRole(sug, covered);
      if role.None? {
        continue;
      }
      var key := Bucket(role.value, After2000);
      EveryBucketListed(key);
      totals := totals[key := totals[key] + amount];
    }
    assert rows[..|rows|] == rows;
  }

  /** The emission loop: the nonzero buckets in column order. */
  method EmitColumns(totals: map<Bucket, real>) returns (result: seq<(string, real)>)
    requires forall b :: b in TagmulBuckets ==> b in totals
    ensures result == Emit(TagmulBuckets, totals)
  {
    result := [];
    var buckets := TagmulBuckets;
    for k := 0 to |buckets|
      invariant result == Emit(buckets[..k], totals)
    {
      assert buckets[..k + 1][..k] == buckets[..k];
      var b := buckets[k];
      if totals[b] != 0.0 {
        result := result + [(TagmulColumn(b), totals[b])];
      }
    }
    assert buckets[..|buckets|] == buckets;
  }

  /** A map with the grid's keys and the grid's values is the grid. */
  lemma GridExtensional(totals: map<Bucket, real>, primary: seq<Option<(Bucket, real)>>, secondary: seq<Option<(string, real)>>)
    requires forall b :: b in totals <==> b in TagmulBuckets
    requires forall b :: b in totals ==> totals[b] == BucketTotal(primary, secondary, b)
    ensures totals == Grid(primary, secondary)
  {
  }

  /** `_collect_tagmul_periods`. */
  method CollectTagmulPeriods(d: Doc, account: nat) returns (result: seq<(string, real)>)
    ensures result == TagmulPeriods(d, account)
  {
    var primary := PrimaryRowsOf(d, PeriodNodes(d, account));
    var secondary := SecondaryRowsOf(d, YitrotNodes(d, account));
    var totals, hasPeriodData := PrimaryPass(primary);
    ghost var covered := Flagged(hasPeriodData);
    assert NeedsFallback(covered) <==> !(hasPeriodData[Employee] && hasPeriodData[Employer]);
    if !(hasPeriodData[Employee] && hasPeriodData[Employer]) {
      totals := SecondaryPass(secondary, totals, hasPeriodData);
    }
    GridExtensional(totals, primary, secondary);
    result := EmitColumns(totals);
  }

  /** The fallback pass never credits a role that had primary data, nor any bucket but after-2000. */
  lemma {:induction false} SecondaryTotalZero(rows: seq<Option<(string, real)>>, covered: set<Role>, b: Bucket)
    requires b.role in covered || b.period != After2000
    ensures SecondaryTotal(rows, covered, b) == 0.0
    decreases |rows|
  {
    if rows != [] {
      SecondaryTotalZero(rows[..|rows| - 1], covered, b);
    }
  }

  /**
   * A bucket's total differs from what the primary rows put in it only for
   * the after-2000 bucket of a role that received no primary data, and only
   * when the fallback pass runs.
   */
  lemma FallbackOnlyFillsMissingRole(primary: seq<Option<(Bucket, real)>>, secondary: seq<Option<(string, real)>>, b: Bucket)
    ensures BucketTotal(primary, secondary, b) != PrimaryTotal(primary, b)
        ==> NeedsFallback(Covered(primary)) && b.role !in Covered(primary) && b.period == After2000
  {
    if b.role in Covered(primary) || b.period != After2000 {
      SecondaryTotalZero(secondary, Covered(primary), b);
    }
  }

  /** A role is covered exactly when some primary row was kept for it. */
  lemma {:induction false} CoveredRoles(rows: seq<Option<(Bucket, real)>>, r: Role)
    ensures r in Covered(rows) <==> exists k :: 0 <= k < |rows| && rows[k].Some? && rows[k].value.0.role == r
    decreases |rows|
  {
    if rows != [] {
      var init := rows[..|rows| - 1];
      CoveredRoles(init, r);
      assert forall k :: 0 <= k < |init| ==> init[k] == rows[k];
    }
  }

  /** A skipped primary row neither adds to a bucket nor marks a role. */
  lemma {:induction false} SkippedRowsNeutral(rows: seq<Option<(Bucket, real)>>, skipped: seq<Option<(Bucket, real)>>, b: Bucket)
    requires forall k :: 0 <= k < |skipped| ==> skipped[k].None?
    ensures PrimaryTotal(rows + skipped, b) == PrimaryTotal(rows, b)
    ensures Covered(rows + skipped) == Covered(rows)
    decreases |skipped|
  {
    if skipped == [] {
      assert rows + skipped == rows;
    } else {
      var init := skipped[..|skipped| - 1];
      assert (rows + skipped)[..|rows + skipped| - 1] == rows + init;
      SkippedRowsNeutral(rows, init, b);
    }
  }

  /** The sum of the totals of `buckets`. */
  function SumBuckets(buckets: seq<Bucket>, totals: map<Bucket, real>): real
    requires forall b :: b in buckets ==> b in totals
    decreases |buckets|
  {
    if buckets == [] then 0.0
    else
      var init := buckets[..|buckets| - 1];
      assert forall x :: x in init ==> x in buckets;
      SumBuckets(init, totals) + totals[buckets[|buckets| - 1]]
  }

  /** Dropping the zero buckets does not change the sum: the contributions total is the grid's total. */
  lemma {:induction false} EmitKeepsSum(buckets: seq<Bucket>, totals: map<Bucket, real>)
    requires forall b :: b in buckets ==> b in totals
    ensures SumColumns(Emit(buckets, totals)) == SumBuckets(buckets, totals)
    decreases |buckets|
  {
    if buckets != [] {
      var init := buckets[..|buckets| - 1];
      assert forall x :: x in init ==> x in buckets;
      EmitKeepsSum(init, totals);
      var b := buckets[|buckets| - 1];
      var e := Emit(init, totals);
      if totals[b] != 0.0 {
        assert (e + [(TagmulColumn(b), totals[b])])[..|e|] == e;
      } else {
        assert e + [] == e;
      }
    }
  }
}
