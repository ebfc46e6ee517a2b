/** The extractor's fixed tables: tag lists, code tables, column names and constants. */
module Tables {

  /** The placeholder the extractor writes for a missing categorical value. */
  const Unknown: string := "לא ידוע"

  /** Tags naming or identifying the managing company, in lookup order. */
  const ManagingCompanyTags: seq<string> := [
    "SHEM-METAFEL", "SHEM-YATZRAN", "SHEM_HA_MOSAD", "Provider", "Company",
    "KOD-MEZAHE-METAFEL", "KOD-MEZAHE-YATZRAN", "KOD-YATZRAN", "MEZAHE-YATZRAN"
  ]

  /** Tags describing the plan type. */
  const PlanTypeTags: seq<string> := [
    "SUG-TOCHNIT-O-CHESHBON", "SUG-POLISA", "SUG-MUTZAR", "SUG-KEREN-PENSIA", "SUG-KUPA", "SUG-HAFRASHA"
  ]

  /** Tags whose values are always kept as balance-related fields. */
  const BalanceExplicitTags: set<string> := {
    "TOTAL-CHISACHON-MTZBR", "TOTAL-ERKEI-PIDION", "YITRAT-KASPEY-TAGMULIM", "YITRAT-PITZUIM",
    "YITRAT-PITZUIM-MAASIK-NOCHECHI", "YITRAT-PITZUIM-LEKITZBA-MAAVIDIM-KODMIM",
    "ERECH-PIDION-PITZUIM-MAASIK-NOCHECHI", "ERECH-PIDION-PITZUIM-LEKITZBA-MAAVIDIM-KODMIM",
    "TOTAL-HAFKADOT-OVED-TAGMULIM-SHANA-NOCHECHIT", "TOTAL-HAFKADOT-MAAVID-TAGMULIM-SHANA-NOCHECHIT",
    "TOTAL-HAFKADOT-PITZUIM-SHANA-NOCHECHIT", "SCHUM-HAFKADA-SHESHULAM", "SCHUM-TAGMULIM", "SCHUM-PITURIM"
  }

  /** Substrings of an upper-cased tag that mark it as balance-related. */
  const BalanceKeywords: seq<string> := ["TAGMUL", "PITZ", "PITZU", "PITZUI"]

  /** Who paid a contribution. */
  datatype Role = Employee | Employer

  /** The regulatory period a contribution belongs to. */
  datatype Period = Before2000 | After2000 | After2008NonPaying

  /** One cell of the 2 x 3 contribution grid. */
  datatype Bucket = Bucket(role: Role, period: Period)

  /** The six buckets in the order of the contribution columns. */
  const TagmulBuckets: seq<Bucket> := [
    Bucket(Employee, Before2000), Bucket(Employee, After2000), Bucket(Employee, After2008NonPaying),
    Bucket(Employer, Before2000), Bucket(Employer, After2000), Bucket(Employer, After2008NonPaying)
  ]

  /** The output column of each bucket. */
  function TagmulColumn(b: Bucket): string {
    match b
    case Bucket(Employee, Before2000) => "תגמולי עובד עד 2000"
    case Bucket(Employee, After2000) => "תגמולי עובד אחרי 2000"
    case Bucket(Employee, After2008NonPaying) => "תגמולי עובד אחרי 2008 (קצבה לא משלמת)"
    case Bucket(Employer, Before2000) => "תגמולי מעביד עד 2000"
    case Bucket(Employer, After2000) => "תגמולי מעביד אחרי 2000"
    case Bucket(Employer, After2008NonPaying) => "תגמולי מעביד אחרי 2008 (קצבה לא משלמת)"
  }

  /** The period of a KOD-TECHULAT-SHICHVA code. */
  const TechulatCodePeriod: map<string, Period> := map[
    "1" := Before2000, "2" := After2000, "7" := After2008NonPaying,
    "9" := After2008NonPaying, "13" := After2008NonPaying
  ]

  /** The payer role of a REKIV-ITRA-LETKUFA code. */
  const TagmulRoleByRekiv: map<string, Role> := map[
    "2" := Employee, "3" := Employer, "8" := Employee, "9" := Employer
  ]

  /** KOD-SUG-HAFRASHA codes of employee and of employer deposits, used by the fallback pass. */
  const EmployeeSugCodes: set<string> := {"2", "4", "8", "10"}
  const EmployerSugCodes: set<string> := {"3", "7", "9", "11"}

  /** Tags naming an employer or payer, in lookup order. */
  const EmployerNameTags: seq<string> := [
    "SHEM-MAASIK", "SHEM-MESHALEM", "SHEM-BAAL-POLISA-SHEEINO-MEVUTAH", "SHEM-BAAL-POLISA",
    "SHEM-MAFKID", "SHEM-BEALIM", "SHEM-HAMESHALLEM"
  ]

  /** Product labels. */
  const LifeSavingsPolicy: string := "פוליסת ביטוח חיים משולב חיסכון"
  const LifePolicy: string := "פוליסת ביטוח חיים"
  const ProvidentFund: string := "קופת גמל"
  const PensionFund: string := "קרן פנסיה"
  const PureSavingsPolicy: string := "פוליסת חיסכון טהור"
  const StudyFund: string := "קרן השתלמות"
  const InvestmentProvidentFund: string := "גמל להשקעה"

  /** The product label of a SUG-MUTZAR code. */
  const ProductTypeMap: map<string, string> := map[
    "1" := LifeSavingsPolicy, "2" := LifePolicy, "3" := ProvidentFund,
    "4" := PensionFund, "5" := PureSavingsPolicy
  ]

  /** The five severance columns and the raw tags summed into each, in column order. */
  const SeveranceColumnTags: seq<(string, seq<string>)> := [
    ("פיצויים מעסקי נוכחי", ["ERECH-PIDION-PITZUIM-MAASIK-NOCHECHI", "YITRAT-PITZUIM-MAASIK-NOCHECHI"]),
    ("פיצויים לאחר התחשבנות", ["ERECH-PIDION-PITZUIM-LEKITZBA-MAAVIDIM-KODMIM"]),
    ("פיצויים שלא עברו התחשבנות", ["TZVIRAT-PITZUIM-PTURIM-MAAVIDIM-KODMIM", "YITRAT-PITZUIM-LELO-HITCHASHBENOT"]),
    ("פיצויים ממעסיקים קודמים ברצף זכויות", ["TZVIRAT-PITZUIM-MAAVIDIM-KODMIM-BERETZEF-ZECHUYOT"]),
    ("פיצויים ממעסיקים קודמים ברצף קצבה", ["TZVIRAT-PITZUIM-MAAVIDIM-KODMIM-BERETZEF-KITZBA"])
  ]

  /** Differences up to this size are rounding noise. */
  const BalanceTolerance: real := 0.5

  /** Segment texts that count as no amount at all. */
  const NumericSentinels: set<string> := {"", "0", "0.0", "0.00", "NIL", "None", "none"}
}
