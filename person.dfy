/**
 * The personal details of the file's main client (`_extract_person_details`):
 * the customer element, its identity fields and the address assembled from
 * the present clauses.
 */
module Person {
  import opened Wrappers
  import opened Text
  import opened Document
  import opened FieldResolver
  import opened Normalisers

  /** The customer element tags, in lookup order. */
  const CustomerTags: seq<string> := ["YeshutLakoach", "Lakoach"]

  const IdTags: seq<string> := ["MISPAR-ZIHUY-LAKOACH", "MISPAR-ZEHUT", "MISPAR-ZIHUY"]
  const FirstNameTags: seq<string> := ["SHEM-PRATI", "SHEM-PRATI-LAKOACH"]
  const LastNameTags: seq<string> := ["SHEM-MISHPACHA", "SHEM-MISHPACHA-LAKOACH"]
  const BirthDateTags: seq<string> := ["TAARICH-LEIDA", "TAARICH-LEYDA"]

  /** The words the address and gender values are built from. */
  const EntranceWord: string := "כניסה"
  const ApartmentWord: string := "דירה"
  const ZipWord: string := "מיקוד"
  const Male: string := "זכר"
  const Female: string := "נקבה"

  /** The raw fields read from the customer element; "" where a field is missing. */
  datatype PersonFields = PersonFields(
    id: string, first: string, last: string, birth: string,
    street: string, house: string, entrance: string, apartment: string,
    city: string, zip: string, country: string,
    phone: string, mobile: string, email: string, gender: string)

  /**
   * The details dictionary: one optional entry per key the source may write
   * (id_number, full_name, birth_date, full_address, phone, mobile, email,
   * gender_code, gender); None where the key is absent.
   */
  datatype PersonDetails = PersonDetails(
    idNumber: Option<string>, fullName: Option<string>, birthDate: Option<string>,
    fullAddress: Option<string>, phone: Option<string>, mobile: Option<string>,
    email: Option<string>, genderCode: Option<string>, gender: Option<string>)

  /** The empty dictionary. */
  const NoDetails: PersonDetails := PersonDetails(None, None, None, None, None, None, None, None, None)

  /** The first `.//YeshutLakoach` below the root, else the first `.//Lakoach`. */
  function CustomerNode(d: Doc): (r: Option<nat>)
    ensures r.Some? ==> r.value < |d.nodes| && Tag(d, r.value) in CustomerTags
    ensures FindFirst(d, 0, "YeshutLakoach").Some? ==> r.Some? && Tag(d, r.value) == "YeshutLakoach"
    ensures r.None? <==> FindFirst(d, 0, "YeshutLakoach").None? && FindFirst(d, 0, "Lakoach").None?
    ensures FindFirst(d, 0, "YeshutLakoach").Some? ==> r == FindFirst(d, 0, "YeshutLakoach")
    ensures FindFirst(d, 0, "YeshutLakoach").None? ==> r == FindFirst(d, 0, "Lakoach")
  {
    var first := FindFirst(d, 0, "YeshutLakoach");
    if first.Some? then
      assert first.value in FindAll(d, 0, "YeshutLakoach");
      first
    else
      var second := FindFirst(d, 0, "Lakoach");
      if second.Some? then
        assert second.value in FindAll(d, 0, "Lakoach");
        second
      else None
  }

  /** The fields of customer element `c`, each read as `_get_text` (the e-mail from any depth). */
  function ReadPerson(d: Doc, c: nat): PersonFields {
    PersonFields(
      FirstText(d, c, IdTags), FirstText(d, c, FirstNameTags), FirstText(d, c, LastNameTags),
      FirstText(d, c, BirthDateTags),
      GetText(d, c, "SHEM-RECHOV", ""), GetText(d, c, "MISPAR-BAIT", ""), GetText(d, c, "MISPAR-KNISA", ""),
      GetText(d, c, "MISPAR-DIRA", ""), GetText(d, c, "SHEM-YISHUV", ""), GetText(d, c, "MIKUD", ""),
      GetText(d, c, "ERETZ", ""),
      GetText(d, c, "MISPAR-TELEPHONE-KAVI", ""), GetText(d, c, "MISPAR-CELLULARI", ""),
      FindTextAnywhere(d, c, "E-MAIL"), GetText(d, c, "MIN", ""))
  }

  /**
   * `raw.lstrip('0') or raw`: leading zeros dropped, unless nothing would
   * be left.
   */
  function CleanId(raw: string): (r: string)
    ensures raw != "" ==> r != ""
    ensures |r| <= |raw| && r == raw[|raw| - |r|..]
    ensures forall k :: 0 <= k < |raw| - |r| ==> raw[k] == '0'
    ensures (exists k :: 0 <= k < |raw| && raw[k] != '0') ==> r != "" && r[0] != '0'
    ensures (forall k :: 0 <= k < |raw| ==> raw[k] == '0') ==> r == raw
  {
    var trimmed := TrimStart(raw, {'0'});
    TrimStartDropsOnly(raw, {'0'});
    if trimmed != "" then
      trimmed
    else
      assert forall k :: 0 <= k < |raw| ==> raw[k] == '0';
      raw
  }

  /** Cleaning an identifier twice is cleaning it once. */
  lemma CleanIdIdempotent(raw: string)
    ensures CleanId(CleanId(raw)) == CleanId(raw)
  {
    var r := CleanId(raw);
    if r != "" && r[0] != '0' {
      assert TrimStart(r, {'0'}) == r;
    } else if r != "" {
      assert !(exists k :: 0 <= k < |raw| && raw[k] != '0');
      assert r == raw;
    }
  }

  /** The name parts that are present, first name first. */
  function NameParts(first: string, last: string): seq<string> {
    (if first != "" then [first] else []) + (if last != "" then [last] else [])
  }

  /** `' '.join(part for part in [first, last] if part)`. */
  function FullNameOf(first: string, last: string): (r: string)
    ensures r == "" <==> first == "" && last == ""
    ensures first != "" ==> StartsWith(r, first)
    ensures first != "" && last != "" ==> r == first + " " + last
    ensures first == "" ==> r == last
    ensures last == "" ==> r == first
  {
    var parts := NameParts(first, last);
    if parts == [] then Join(" ", parts)
    else
      JoinStartsWithFirst(" ", parts);
      assert first != "" && last != "" ==> parts[1..] == [last] && Join(" ", [last]) == last;
      Join(" ", parts)
  }

  /** A full name made of space-free parts splits back into exactly those parts. */
  lemma FullNameSplits(first: string, last: string)
    requires first != "" || last != ""
    requires ' ' !in first && ' ' !in last
    ensures Split(FullNameOf(first, last), ' ') == NameParts(first, last)
  {
    SplitJoin(NameParts(first, last), ' ');
  }

  /** The street clause: the street, then the house number, entrance and apartment that are present. */
  function StreetPart(street: string, house: string, entrance: string, apartment: string): (r: string)
    ensures StartsWith(r, street)
    ensures house == "" && entrance == "" && apartment == "" ==> r == street
    ensures r == street + (if house != "" then " " + house else "")
                        + (if entrance != "" then ", " + EntranceWord + " " + entrance else "")
                        + (if apartment != "" then ", " + ApartmentWord + " " + apartment else "")
  {
    var withHouse := if house != "" then street + " " + house else street;
    var withEntrance := if entrance != "" then withHouse + ", " + EntranceWord + " " + entrance else withHouse;
    var full := if apartment != "" then withEntrance + ", " + ApartmentWord + " " + apartment else withEntrance;
    assert withHouse[..|street|] == street;
    assert withEntrance[..|withHouse|] == withHouse;
    assert full[..|withEntrance|] == withEntrance;
    full
  }

  function Count(b: bool): nat {
    if b then 1 else 0
  }

  /**
   * The address clauses in order: street (only when a street is given;
   * house, entrance and apartment alone are dropped), city, zip, country.
   */
  function AddressClauses(p: PersonFields): (r: seq<string>)
    ensures forall k :: 0 <= k < |r| ==> r[k] != ""
    ensures |r| == Count(p.street != "") + Count(p.city != "") + Count(p.zip != "") + Count(p.country != "")
    ensures r == [] <==> p.street == "" && p.city == "" && p.zip == "" && p.country == ""
    ensures p.street != "" ==> StartsWith(r[0], p.street)
    ensures p.country != "" ==> r[|r| - 1] == p.country
    ensures p.city != "" ==> p.city in r
    ensures p.zip != "" ==> ZipWord + " " + p.zip in r
    ensures r == (if p.street != "" then [StreetPart(p.street, p.house, p.entrance, p.apartment)] else [])
               + (if p.city != "" then [p.city] else [])
               + (if p.zip != "" then [ZipWord + " " + p.zip] else [])
               + (if p.country != "" then [p.country] else [])
  {
    var street := if p.street != "" then [StreetPart(p.street, p.house, p.entrance, p.apartment)] else [];
    var city := if p.city != "" then [p.city] else [];
    var zip := if p.zip != "" then [ZipWord + " " + p.zip] else [];
    var country := if p.country != "" then [p.country] else [];
    var r := street + city + zip + country;
    assert p.street != "" ==> r[0] == street[0];
    assert p.city != "" ==> p.city == r[|street|];
    assert p.zip != "" ==> r[|street| + |city|] == ZipWord + " " + p.zip;
    r
  }

  /** Joining starts with the first part. */
  lemma {:induction false} JoinStartsWithFirst(sep: string, parts: seq<string>)
    requires parts != []
    ensures StartsWith(Join(sep, parts), parts[0])
  {
    if |parts| > 1 {
      var j := Join(sep, parts);
      assert j == parts[0] + (sep + Join(sep, parts[1..]));
      assert j[..|parts[0]|] == parts[0];
    }
  }

  /** `', '.join(address_parts)`, or "" when no clause is present. */
  function Address(p: PersonFields): (r: string)
    ensures r == "" <==> p.street == "" && p.city == "" && p.zip == "" && p.country == ""
    ensures p.street != "" ==> StartsWith(r, p.street)
    ensures r == Join(", ", AddressClauses(p))
  {
    var clauses := AddressClauses(p);
    if clauses == [] then ""
    else
      JoinStartsWithFirst(", ", clauses);
      assert clauses[0] != "";
      Join(", ", clauses)
  }

  /** The gender label of a MIN code. */
  function GenderLabel(code: string): (r: Option<string>)
    ensures r.Some? <==> code == "1" || code == "2"
    ensures r == Some(Male) <==> code == "1"
    ensures r == Some(Female) <==> code == "2"
  {
    if code == "1" then Some(Male) else if code == "2" then Some(Female) else None
  }

  /**
   * The dictionary written from the fields and the derived identifier, full
   * name, birth date and address, in the source's order of keys.
   */
  function Assemble(p: PersonFields, id: string, name: string, birth: string, address: string): PersonDetails {
    PersonDetails(
      if p.id != "" then Some(id) else None,
      if p.first != "" || p.last != "" then Some(name) else None,
      if p.birth != "" then Some(birth) else None,
      if address != "" then Some(address) else None,
      if p.phone != "" then Some(p.phone) else None,
      if p.mobile != "" then Some(p.mobile) else None,
      if p.email != "" then Some(p.email) else None,
      if p.gender != "" then Some(p.gender) else None,
      GenderLabel(p.gender))
  }

  /**
   * `_extract_person_details()` for one customer's fields: a key is present
   * exactly when the source's condition for it holds; the name appears when
   * either name part does, the address when any of street, city, zip or
   * country does (house, entrance and apartment alone give none), and the
   * gender label only for the codes "1" and "2".
   */
  function Details(p: PersonFields): (r: PersonDetails)
    ensures r.idNumber.Some? <==> p.id != ""
    ensures r.fullName.Some? <==> p.first != "" || p.last != ""
    ensures r.birthDate.Some? <==> p.birth != ""
    ensures r.fullAddress.Some? <==> p.street != "" || p.city != "" || p.zip != "" || p.country != ""
    ensures r.phone.Some? <==> p.phone != ""
    ensures r.mobile.Some? <==> p.mobile != ""
    ensures r.email.Some? <==> p.email != ""
    ensures r.genderCode.Some? <==> p.gender != ""
    ensures r.gender.Some? <==> p.gender == "1" || p.gender == "2"
    ensures r.gender.Some? ==> r.genderCode.Some? && (r.gender.value == Male <==> r.genderCode.value == "1")
  {
    Assemble(p, CleanId(p.id), FullNameOf(p.first, p.last), FormatDate(p.birth), Address(p))
  }

  /**
   * The dictionary in terms of its parts: each present key holds the value
   * computed for it, and the gender label is always the code's label.
   */
  lemma AssembleValues(p: PersonFields, id: string, name: string, birth: string, address: string)
    ensures var r := Assemble(p, id, name, birth, address);
      && (p.id != "" ==> r.idNumber == Some(id))
      && (p.first != "" || p.last != "" ==> r.fullName == Some(name))
      && (p.birth != "" ==> r.birthDate == Some(birth))
      && (address != "" ==> r.fullAddress == Some(address))
      && (p.phone != "" ==> r.phone == Some(p.phone))
      && (p.mobile != "" ==> r.mobile == Some(p.mobile))
      && (p.email != "" ==> r.email == Some(p.email))
      && (p.gender != "" ==> r.genderCode == Some(p.gender))
      && r.gender == GenderLabel(p.gender)
  {
  }

  /**
   * The values written: the identifier without leading zeros, the joined
   * name, the formatted birth date, the composed address, the raw contact
   * and gender fields, and the gender's label.
   */
  lemma DetailsValues(p: PersonFields)
    ensures p.id != "" ==> Details(p).idNumber == Some(CleanId(p.id))
    ensures p.first != "" || p.last != "" ==> Details(p).fullName == Some(FullNameOf(p.first, p.last))
    ensures p.birth != "" ==> Details(p).birthDate == Some(FormatDate(p.birth))
    ensures Details(p).fullAddress.Some? ==> Details(p).fullAddress.value == Address(p)
    ensures p.phone != "" ==> Details(p).phone == Some(p.phone)
    ensures p.mobile != "" ==> Details(p).mobile == Some(p.mobile)
    ensures p.email != "" ==> Details(p).email == Some(p.email)
    ensures p.gender != "" ==> Details(p).genderCode == Some(p.gender)
    ensures Details(p).gender == GenderLabel(p.gender)
  {
    AssembleValues(p, CleanId(p.id), FullNameOf(p.first, p.last), FormatDate(p.birth), Address(p));
  }

  /** `_extract_person_details()` on a loaded document: empty when there is no customer element. */
  function DocumentDetails(d: Doc): (r: PersonDetails)
    ensures CustomerNode(d).None? ==> r == NoDetails
    ensures CustomerNode(d).Some? ==> r == Details(ReadPerson(d, CustomerNode(d).value))
    ensures r.gender.Some? ==> r.genderCode.Some? && (r.gender.value == Male <==> r.genderCode.value == "1")
  {
    match CustomerNode(d)
    case None => NoDetails
    case Some(c) => Details(ReadPerson(d, c))
  }

  /** `_extract_person_details()`: the dictionary filled field by field. */
  method ExtractPersonDetails(d: Doc) returns (details: PersonDetails)
    ensures details == DocumentDetails(d)
  {
    details := NoDetails;
    var customer := FindFirst(d, 0, "YeshutLakoach");
    if customer.None? {
      customer := FindFirst(d, 0, "Lakoach");
    }
    if customer.None? {
      return;
    }
    var p := ReadPerson(d, customer.value);
    var id := CleanId(p.id);
    var name := FullNameOf(p.first, p.last);
    var birth := FormatDate(p.birth);
    var address := Address(p);
    details := FillDetails(p, id, name, birth, address);
  }

  /**
   * The body of `_extract_person_details()` once the customer's fields are
   * read and the derived values computed: each key written when its
   * condition holds.
   */
  method FillDetails(p: PersonFields, id: string, name: string, birth: string, address: string) returns (details: PersonDetails)
    ensures details == Assemble(p, id, name, birth, address)
  {
    details := NoDetails;
    if p.id != "" {
      details := details.(idNumber := Some(id));
    }
    if p.first != "" || p.last != "" {
      details := details.(fullName := Some(name));
    }
    if p.birth != "" {
      details := details.(birthDate := Some(birth));
    }
    if address != "" {
      details := details.(fullAddress := Some(address));
    }
    if p.phone != "" {
      details := details.(phone := Some(p.phone));
    }
    if p.mobile != "" {
      details := details.(mobile := Some(p.mobile));
    }
    if p.email != "" {
      details := details.(email := Some(p.email));
    }
    if p.gender != "" {
      details := details.(genderCode := Some(p.gender));
      var genderLabel := GenderLabel(p.gender);
      if genderLabel.Some? {
        details := details.(gender := genderLabel);
      }
    }
  }
}
