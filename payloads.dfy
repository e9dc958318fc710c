/**
 * The request bodies the wizard builds from the form: the investor record
 * (step 1), the investment (step 2), the category-dependent profile and the
 * profile link (step 3), with the phone and date-of-birth conversions.
 */
module Payloads {
  import opened Wrappers
  import opened JsValues
  import opened FormData

  /** The deal the operator picked: its identifier and its price per security. */
  datatype Deal = Deal(id: int, pricePerSecurity: real)

  const WebFormTag: string := "web-form"
  const ContactInformationStep: string := "contact-information"

  /** Body of the investor-creation request. */
  datatype InvestorBody = InvestorBody(
    firstName: string, lastName: string, email: string, phoneNumber: string,
    tags: seq<string>, dealId: int)

  /** Step 1 sends the four identity fields as typed, the web-form tag and the deal. */
  function BasicInfoBody(form: Form, deal: Deal): InvestorBody
  {
    InvestorBody(form.firstName, form.lastName, form.email, form.phone, [WebFormTag], deal.id)
  }

  /**
   * Body of the investment update. Each field is a JSON number, or `None`
   * for a NaN or infinite value, which `JSON.stringify` writes as null.
   */
  datatype InvestmentBody = InvestmentBody(investmentValue: Option<real>, numberOfSecurities: Option<int>)

  function JsonNumber(n: Num): (r: Option<real>)
    ensures r.Some? <==> n.Finite?
    ensures r.Some? ==> r.value == n.v
  {
    match n
    case NaN => None
    case Finite(v) => Some(v)
  }

  /**
   * `Math.round(amount / price)`: the whole number of securities nearest to
   * the amount divided by the price, halves rounded up; null when the amount
   * is NaN or the price is zero (the quotient is then NaN or infinite).
   */
  function SecurityCount(amount: Num, price: real): (r: Option<int>)
    ensures r.Some? <==> amount.Finite? && price != 0.0
    ensures r.Some? ==> r.value as real - 0.5 <= amount.v / price < r.value as real + 0.5
  {
    if amount.NaN? || price == 0.0 then None else Some(RoundHalfUp(amount.v / price))
  }

  /** Step 2 sends `parseFloat` of the amount and the security count derived from `Number` of it. */
  function InvestmentBodyOf(form: Form, deal: Deal): InvestmentBody
  {
    InvestmentBody(JsonNumber(ParseFloat(form.investmentAmount)),
                   SecurityCount(ToNumber(form.investmentAmount), deal.pricePerSecurity))
  }

  /**
   * The calendar fields of the date of birth as the local clock reads them
   * (`getFullYear()`, `getMonth() + 1`, `getDate()`), or an invalid date.
   */
  datatype LocalDate = InvalidDate | LocalDate(year: int, month: nat, day: nat)

  /** `String(n).padStart(2, '0')`. */
  function PadTwo(n: nat): (s: string)
    ensures AllDigits(s) && |s| >= 2
    ensures n < 100 ==> |s| == 2 && IntegerValue(s) == n
  {
    var digits := NatToString(n);
    NatToStringLength(n);
    IntegerValueOfNatToString(n);
    if |digits| < 2 then
      assert IntegerValue("0" + digits) == n by {
        assert ("0" + digits)[..1] == "0";
      }
      "0" + digits
    else digits
  }

  /** The `YYYY-MM-DD` rendering of the date of birth; an invalid date prints `NaN-NaN-NaN`. */
  function FormatDate(d: LocalDate): string
  {
    match d
    case InvalidDate => "NaN-NaN-NaN"
    case LocalDate(y, m, day) => IntToString(y) + "-" + PadTwo(m) + "-" + PadTwo(day)
  }

  /** Reads a `YYYY-MM-DD` string back into year, month and day. */
  function ParseIsoDate(s: string): Option<(int, nat, nat)>
  {
    if |s| == 10 && s[4] == '-' && s[7] == '-' && AllDigits(s[..4]) && AllDigits(s[5..7]) && AllDigits(s[8..])
    then Some((IntegerValue(s[..4]), IntegerValue(s[5..7]), IntegerValue(s[8..])))
    else None
  }

  /**
   * For a four-digit year, the formatted date is ten characters long and
   * reads back to the same year, month and day.
   */
  lemma FormatDateRoundTrip(y: int, m: nat, d: nat)
    requires 1000 <= y <= 9999 && m < 100 && d < 100
    ensures |FormatDate(LocalDate(y, m, d))| == 10
    ensures ParseIsoDate(FormatDate(LocalDate(y, m, d))) == Some((y, m, d))
  {
    var ys, ms, ds := NatToString(y), PadTwo(m), PadTwo(d);
    NatToStringLength(y);
    IntegerValueOfNatToString(y);
    var s := FormatDate(LocalDate(y, m, d));
    assert s == ys + "-" + ms + "-" + ds;
    assert s[..4] == ys;
    assert s[5..7] == ms;
    assert s[8..] == ds;
  }

  /** An "individuals" profile for a birth date read as 7 May 1990 sends "1990-05-07". */
  lemma DateOfBirthScenario(form: Form, investorId: Option<int>)
    requires form.investorType == "individuals"
    ensures ProfileBodyOf(form, investorId, LocalDate(1990, 5, 7)).fields.dateOfBirth == "1990-05-07"
  {
    assert NatToString(1990) == "1990";
    assert PadTwo(5) == "05" && PadTwo(7) == "07";
  }

  /** An invalid date never reads back as a date. */
  lemma InvalidDateIsNotIso()
    ensures ParseIsoDate(FormatDate(InvalidDate)) == None
  {
  }

  /** `s.replace(/-/g, "")`: every hyphen removed, everything else kept in order. */
  function StripHyphens(s: string): (r: string)
    ensures |r| <= |s|
    ensures forall i :: 0 <= i < |r| ==> r[i] != '-'
    ensures multiset(r) == multiset(s)['-' := 0]
  {
    if s == [] then []
    else
      assert s == [s[0]] + s[1..];
      if s[0] == '-' then StripHyphens(s[1..])
      else [s[0]] + StripHyphens(s[1..])
  }

  /** Stripping distributes over concatenation, so the order of the other characters is kept. */
  lemma {:induction false} StripHyphensAppend(a: string, b: string)
    ensures StripHyphens(a + b) == StripHyphens(a) + StripHyphens(b)
  {
    if a != [] {
      assert (a + b)[1..] == a[1..] + b;
      StripHyphensAppend(a[1..], b);
    } else {
      assert a + b == b;
    }
  }

  /** A phone without hyphens is sent unchanged. */
  lemma {:induction false} StripHyphensWithoutHyphens(s: string)
    requires forall i :: 0 <= i < |s| ==> s[i] != '-'
    ensures StripHyphens(s) == s
  {
    if s != [] {
      StripHyphensWithoutHyphens(s[1..]);
    }
  }

  /** Stripping twice is stripping once. */
  lemma StripHyphensIdempotent(s: string)
    ensures StripHyphens(StripHyphens(s)) == StripHyphens(s)
  {
    StripHyphensWithoutHyphens(StripHyphens(s));
  }

  /** The fields both supported profile categories send. */
  datatype ProfileFields = ProfileFields(
    firstName: string, email: string, lastName: string, phoneNumber: string,
    investorInfo: string, city: string, country: string, dateOfBirth: string,
    investorId: Option<int>, postalCode: string, region: string,
    streetAddress: string, unit2: string, taxpayerId: string)

  /**
   * Body of the profile-creation request: an individual profile also names
   * the investor as its own profile, a joint one does not, and any other
   * category sends an empty object.
   */
  datatype ProfileBody =
    | Individual(fields: ProfileFields, investorProfileId: Option<int>)
    | Joint(fields: ProfileFields)
    | EmptyObject

  /**
   * The shared profile fields: the phone without hyphens, the formatted date
   * of birth, `Number(investorId)` (null when the creation response had no
   * id) and `unit || ""`, which for a string is the unit itself.
   */
  function ProfileFieldsOf(form: Form, investorId: Option<int>, dob: LocalDate): ProfileFields
  {
    ProfileFields(form.firstName, form.email, form.lastName, StripHyphens(form.phone),
                  form.investorType, form.city, form.country, FormatDate(dob),
                  investorId, form.postalCode, form.state,
                  form.streetAddress, form.unit, form.taxpayerId)
  }

  function ProfileBodyOf(form: Form, investorId: Option<int>, dob: LocalDate): ProfileBody
  {
    if form.investorType == "individuals" then Individual(ProfileFieldsOf(form, investorId, dob), investorId)
    else if form.investorType == "joints" then Joint(ProfileFieldsOf(form, investorId, dob))
    else EmptyObject
  }

  /** Body of the form-encoded request that links the new profile. */
  datatype LinkBody = LinkBody(investorProfileId: int, currentStep: string)

  function LinkBodyOf(profileId: int): LinkBody
  {
    LinkBody(profileId, ContactInformationStep)
  }

  /** Step 1 sends the phone as typed; step 3 sends it with every hyphen removed. */
  lemma PhoneMapping(form: Form, deal: Deal, investorId: Option<int>, dob: LocalDate)
    ensures BasicInfoBody(form, deal).phoneNumber == form.phone
    ensures ProfileFieldsOf(form, investorId, dob).phoneNumber == StripHyphens(BasicInfoBody(form, deal).phoneNumber)
    ensures forall c :: c in ProfileFieldsOf(form, investorId, dob).phoneNumber ==> c != '-'
  {
  }

  /**
   * "individuals" gets a profile naming the investor as its own profile,
   * "joints" the same fields without that link, anything else an empty
   * object. The shared fields carry the address state as the region, the
   * category as the investor info, the formatted date of birth and the unit
   * as typed (`unit || ""` of a string is the string itself, "" included).
   */
  lemma ProfileShape(form: Form, investorId: Option<int>, dob: LocalDate)
    ensures ProfileBodyOf(form, investorId, dob).Individual? <==> form.investorType == "individuals"
    ensures ProfileBodyOf(form, investorId, dob).Joint? <==> form.investorType == "joints"
    ensures ProfileBodyOf(form, investorId, dob).Individual? ==>
      ProfileBodyOf(form, investorId, dob).investorProfileId == ProfileBodyOf(form, investorId, dob).fields.investorId == investorId
    ensures !ProfileBodyOf(form, investorId, dob).EmptyObject? ==>
      var p := ProfileBodyOf(form, investorId, dob).fields;
      p == ProfileFieldsOf(form, investorId, dob) &&
      p.region == form.state && p.investorInfo == form.investorType &&
      p.dateOfBirth == FormatDate(dob) && p.unit2 == form.unit
  {
  }

  /**
   * For a whole-dollar amount and a non-zero price, the investment value is
   * the amount and the count is the nearest whole number of securities.
   */
  lemma WholeDollarInvestmentBody(form: Form, deal: Deal, n: nat)
    requires form.investmentAmount == NatToString(n) && deal.pricePerSecurity != 0.0
    ensures InvestmentBodyOf(form, deal).investmentValue == Some(n as real)
    ensures InvestmentBodyOf(form, deal).numberOfSecurities == Some(RoundHalfUp(n as real / deal.pricePerSecurity))
  {
    DigitStringValue(form.investmentAmount);
    IntegerValueOfNatToString(n);
  }

  /** 1000 at 250 is 4 securities, 1000 at 300 is 3, and 350 at 100 rounds its half up to 4. */
  lemma SecurityCountExamples()
    ensures SecurityCount(Finite(1000.0), 250.0) == Some(4)
    ensures SecurityCount(Finite(1000.0), 300.0) == Some(3)
    ensures SecurityCount(Finite(350.0), 100.0) == Some(4)
  {
  }

  /**
   * The link request names the new profile and the contact-information
   * step; distinct profiles give distinct link bodies.
   */
  lemma LinkBodyNamesProfile(profileId: int, other: int)
    ensures LinkBodyOf(profileId).investorProfileId == profileId
    ensures LinkBodyOf(profileId).currentStep == "contact-information"
    ensures LinkBodyOf(profileId) == LinkBodyOf(other) <==> profileId == other
  {
  }

  /**
   * An amount written with an exponent is sent as its value, and the count
   * is the nearest whole number of securities at that value.
   */
  lemma ExponentInvestmentBody(form: Form, deal: Deal, d: string, e: string)
    requires d != [] && AllDigits(d) && e != [] && AllDigits(e)
    requires form.investmentAmount == d + ['e'] + e && deal.pricePerSecurity != 0.0
    ensures var v := Shift(IntegerValue(d) as real, IntegerValue(e));
      InvestmentBodyOf(form, deal).investmentValue == Some(v) &&
      InvestmentBodyOf(form, deal).numberOfSecurities == Some(RoundHalfUp(v / deal.pricePerSecurity))
  {
    assert d + ['e'] + "" + e == form.investmentAmount;
    DigitsWithExponent(d, 'e', "", e);
  }
}
