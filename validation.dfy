/** The per-step validator of the onboarding form. */
module Validation {
  import opened JsValues
  import opened FormData

  /** The keys of the error object: one per form field, plus `api` for a failed remote call. */
  datatype ErrorKey = FieldKey(field: Field) | ApiKey

  type Errors = map<ErrorKey, string>

  const MinimumMessage: string := "Minimum investment is $300"

  /** The message for a required field left empty ("Unit" is never required, but has one for totality). */
  function RequiredMessage(f: Field): string
  {
    match f
    case FirstName => "First name is required"
    case LastName => "Last name is required"
    case Email => "Email is required"
    case Phone => "Phone is required"
    case InvestmentAmount => "Investment amount is required"
    case InvestorType => "Investor type is required"
    case StreetAddress => "Street address is required"
    case Unit => "Unit is required"
    case City => "City is required"
    case PostalCode => "Postal code is required"
    case State => "State is required"
    case Country => "Country is required"
    case DateOfBirth => "Date of birth is required"
    case TaxpayerId => "Taxpayer ID is required"
  }

  /** The fields each step checks for presence; any other step checks none. */
  function RequiredFields(step: int): set<Field>
  {
    if step == 1 then {FirstName, LastName, Email, Phone}
    else if step == 2 then {InvestmentAmount}
    else if step == 3 then {InvestorType, StreetAddress, City, PostalCode, State, Country, DateOfBirth, TaxpayerId}
    else {}
  }

  /** `Number(amount) < 300`: false for NaN, true for a blank amount (which is 0). */
  predicate BelowMinimum(amount: string)
  {
    var n := ToNumber(amount);
    n.Finite? && n.v < 300.0
  }

  /**
   * The error object the validator builds for `step`: the field's own
   * "... is required" message for every required field that is the empty string, and on step 2 the
   * minimum-investment message in place of the amount's entry whenever the
   * amount converts to a number below 300.
   */
  function StepErrors(step: int, form: Form): Errors
  {
    var missing := MissingFields(step, form);
    if step == 2 && BelowMinimum(form.investmentAmount) then missing[FieldKey(InvestmentAmount) := MinimumMessage]
    else missing
  }

  /** The "... is required" entries for the fields `step` requires that are the empty string. */
  function MissingFields(step: int, form: Form): Errors
  {
    MissingAmong(RequiredFields(step), form)
  }

  /** The "... is required" entries for the fields of `fields` that are the empty string. */
  function MissingAmong(fields: set<Field>, form: Form): Errors
  {
    map f | f in fields && Get(form, f) == "" :: FieldKey(f) := RequiredMessage(f)
  }

  /**
   * One line of the validator: `message` is stored under the field's key
   * when the field's value is the empty string.
   */
  function Require(e: Errors, value: string, f: Field, message: string): Errors
  {
    if value == "" then e[FieldKey(f) := message] else e
  }

  /** Checking one more field adds its message exactly when it is empty. */
  lemma CheckOneMore(fields: set<Field>, f: Field, form: Form, before: Errors, value: string)
    requires before == MissingAmong(fields, form) && value == Get(form, f)
    ensures MissingAmong(fields + {f}, form) == Require(before, value, f, RequiredMessage(f))
  {
    var a := MissingAmong(fields + {f}, form);
    var b := Require(before, value, f, RequiredMessage(f));
    assert forall k :: k in a <==> k in b;
  }

  /** Step 1's checks, one after another in the validator's order, build exactly its error object. */
  lemma BasicInfoInOrder(form: Form)
    ensures MissingFields(1, form) ==
      Require(Require(Require(Require(map[],
        form.firstName, FirstName, RequiredMessage(FirstName)),
        form.lastName, LastName, RequiredMessage(LastName)),
        form.email, Email, RequiredMessage(Email)),
        form.phone, Phone, RequiredMessage(Phone))
  {
    var s0: set<Field> := {};
    var s1 := s0 + {FirstName};
    var s2 := s1 + {LastName};
    var s3 := s2 + {Email};
    var s4 := s3 + {Phone};
    var b0: Errors := map[];
    var b1 := Require(b0, form.firstName, FirstName, RequiredMessage(FirstName));
    var b2 := Require(b1, form.lastName, LastName, RequiredMessage(LastName));
    var b3 := Require(b2, form.email, Email, RequiredMessage(Email));
    var b4 := Require(b3, form.phone, Phone, RequiredMessage(Phone));
    assert MissingAmong(s0, form) == b0;
    CheckOneMore(s0, FirstName, form, b0, form.firstName);
    CheckOneMore(s1, LastName, form, b1, form.lastName);
    CheckOneMore(s2, Email, form, b2, form.email);
    CheckOneMore(s3, Phone, form, b3, form.phone);
    assert s4 == RequiredFields(1);
  }

  /** Step 2's presence check builds exactly its error object before the minimum is applied. */
  lemma InvestmentInOrder(form: Form)
    ensures MissingFields(2, form) == Require(map[], form.investmentAmount, InvestmentAmount, RequiredMessage(InvestmentAmount))
  {
    var s0: set<Field> := {};
    var b0: Errors := map[];
    assert MissingAmong(s0, form) == b0;
    CheckOneMore(s0, InvestmentAmount, form, b0, form.investmentAmount);
    assert s0 + {InvestmentAmount} == RequiredFields(2);
  }

  /** Step 3's checks, one after another in the validator's order, build exactly its error object. */
  lemma DetailsInOrder(form: Form)
    ensures MissingFields(3, form) ==
      Require(Require(Require(Require(Require(Require(Require(Require(map[],
        form.investorType, InvestorType, RequiredMessage(InvestorType)),
        form.streetAddress, StreetAddress, RequiredMessage(StreetAddress)),
        form.city, City, RequiredMessage(City)),
        form.postalCode, PostalCode, RequiredMessage(PostalCode)),
        form.state, State, RequiredMessage(State)),
        form.country, Country, RequiredMessage(Country)),
        form.dateOfBirth, DateOfBirth, RequiredMessage(DateOfBirth)),
        form.taxpayerId, TaxpayerId, RequiredMessage(TaxpayerId))
  {
    var s0: set<Field> := {};
    var s1 := s0 + {InvestorType};
    var s2 := s1 + {StreetAddress};
    var s3 := s2 + {City};
    var s4 := s3 + {PostalCode};
    var s5 := s4 + {State};
    var s6 := s5 + {Country};
    var s7 := s6 + {DateOfBirth};
    var s8 := s7 + {TaxpayerId};
    var b0: Errors := map[];
    var b1 := Require(b0, form.investorType, InvestorType, RequiredMessage(InvestorType));
    var b2 := Require(b1, form.streetAddress, StreetAddress, RequiredMessage(StreetAddress));
    var b3 := Require(b2, form.city, City, RequiredMessage(City));
    var b4 := Require(b3, form.postalCode, PostalCode, RequiredMessage(PostalCode));
    var b5 := Require(b4, form.state, State, RequiredMessage(State));
    var b6 := Require(b5, form.country, Country, RequiredMessage(Country));
    var b7 := Require(b6, form.dateOfBirth, DateOfBirth, RequiredMessage(DateOfBirth));
    assert MissingAmong(s0, form) == b0;
    CheckOneMore(s0, InvestorType, form, b0, form.investorType);
    CheckOneMore(s1, StreetAddress, form, b1, form.streetAddress);
    CheckOneMore(s2, City, form, b2, form.city);
    CheckOneMore(s3, PostalCode, form, b3, form.postalCode);
    CheckOneMore(s4, State, form, b4, form.state);
    CheckOneMore(s5, Country, form, b5, form.country);
    CheckOneMore(s6, DateOfBirth, form, b6, form.dateOfBirth);
    CheckOneMore(s7, TaxpayerId, form, b7, form.taxpayerId);
    assert s8 == RequiredFields(3);
  }

  /** The validator only ever reports fields, never `api`, and only fields the step requires. */
  lemma ErrorsAreRequiredFields(step: int, form: Form)
    ensures ApiKey !in StepErrors(step, form)
    ensures forall k :: k in StepErrors(step, form) ==> k.FieldKey? && k.field in RequiredFields(step)
  {
  }

  /**
   * Step 1 reports exactly those of first name, last name, email and phone
   * that are the empty string, each with its "... is required" message.
   */
  lemma BasicInfoErrors(form: Form)
    ensures forall f :: FieldKey(f) in StepErrors(1, form) <==> f in {FirstName, LastName, Email, Phone} && Get(form, f) == ""
    ensures forall f :: FieldKey(f) in StepErrors(1, form) ==> StepErrors(1, form)[FieldKey(f)] == RequiredMessage(f)
    ensures StepErrors(1, form) == map[] <==> form.firstName != "" && form.lastName != "" && form.email != "" && form.phone != ""
  {
    if StepErrors(1, form) == map[] {
      assert FieldKey(FirstName) !in StepErrors(1, form);
      assert FieldKey(LastName) !in StepErrors(1, form);
      assert FieldKey(Email) !in StepErrors(1, form);
      assert FieldKey(Phone) !in StepErrors(1, form);
    }
  }

  /** No trimming: a name made of spaces is present. */
  lemma WhitespaceNamePasses(form: Form)
    requires form.firstName == " "
    ensures FieldKey(FirstName) !in StepErrors(1, form)
  {
  }

  /**
   * Step 3 reports exactly those of the eight detail fields that are the
   * empty string; the unit is never checked.
   */
  lemma DetailsErrors(form: Form)
    ensures forall f :: FieldKey(f) in StepErrors(3, form) <==>
      f in {InvestorType, StreetAddress, City, PostalCode, State, Country, DateOfBirth, TaxpayerId} && Get(form, f) == ""
    ensures forall f :: FieldKey(f) in StepErrors(3, form) ==> StepErrors(3, form)[FieldKey(f)] == RequiredMessage(f)
    ensures FieldKey(Unit) !in StepErrors(3, form)
  {
  }

  /** Whatever the unit holds, no step's verdict changes. */
  lemma UnitNeverChecked(step: int, form: Form, unit: string)
    ensures StepErrors(step, Set(form, Unit, unit)) == StepErrors(step, form)
  {
    var edited := Set(form, Unit, unit);
    assert Unit !in RequiredFields(step);
    MissingFieldsAgree(step, edited, form);
    assert edited.investmentAmount == form.investmentAmount;
  }

  /** The missing-field report reads only the fields the step requires. */
  lemma MissingFieldsAgree(step: int, a: Form, b: Form)
    requires forall f :: f in RequiredFields(step) ==> Get(a, f) == Get(b, f)
    ensures MissingFields(step, a) == MissingFields(step, b)
  {
    var ma, mb := MissingFields(step, a), MissingFields(step, b);
    assert forall k :: k in ma <==> k in mb;
  }

  lemma MissingAmount(form: Form)
    ensures MissingFields(2, form) == if form.investmentAmount == "" then map[FieldKey(InvestmentAmount) := RequiredMessage(InvestmentAmount)] else map[]
  {
    var m := MissingFields(2, form);
    assert forall k :: k in m ==> k == FieldKey(InvestmentAmount);
    if form.investmentAmount == "" {
      assert FieldKey(InvestmentAmount) in m;
    }
  }

  /**
   * Step 2 reports at most the amount: the minimum message when the amount
   * converts to a number below 300, else nothing (a non-empty amount that
   * is not a number passes).
   */
  lemma InvestmentErrors(form: Form)
    ensures BelowMinimum(form.investmentAmount) ==> StepErrors(2, form) == map[FieldKey(InvestmentAmount) := MinimumMessage]
    ensures !BelowMinimum(form.investmentAmount) ==> StepErrors(2, form) == map[]
  {
    if BelowMinimum(form.investmentAmount) {
      AmountBelowMinimum(form);
    } else {
      AmountNotBelowMinimum(form);
    }
  }

  lemma AmountBelowMinimum(form: Form)
    requires BelowMinimum(form.investmentAmount)
    ensures StepErrors(2, form) == map[FieldKey(InvestmentAmount) := MinimumMessage]
  {
    var k := FieldKey(InvestmentAmount);
    MissingAmount(form);
    OverrideOnlyKey(MissingFields(2, form), k, MinimumMessage);
  }

  /** Writing the only key a map may hold leaves a one-entry map. */
  lemma OverrideOnlyKey(m: Errors, k: ErrorKey, v: string)
    requires m.Keys <= {k}
    ensures m[k := v] == map[k := v]
  {
    assert m[k := v].Keys == {k};
  }

  lemma AmountNotBelowMinimum(form: Form)
    requires !BelowMinimum(form.investmentAmount)
    ensures StepErrors(2, form) == map[]
  {
    BlankAmountBelowMinimum(form.investmentAmount);
    MissingAmount(form);
  }

  /** A blank amount converts to 0, which is below the minimum. */
  lemma BlankAmountBelowMinimum(amount: string)
    ensures amount == "" ==> BelowMinimum(amount)
  {
    if amount == "" {
      BlankIsZero(amount);
    }
  }

  /** A blank amount converts to 0, so the minimum message replaces the "required" one. */
  lemma BlankAmountGetsMinimumMessage(form: Form)
    requires form.investmentAmount == ""
    ensures StepErrors(2, form) == map[FieldKey(InvestmentAmount) := MinimumMessage]
  {
    BlankIsZero(form.investmentAmount);
    InvestmentErrors(form);
  }

  /** A whole-dollar amount passes step 2 exactly when it is at least 300. */
  lemma WholeDollarAmount(form: Form, n: nat)
    requires form.investmentAmount == NatToString(n)
    ensures StepErrors(2, form) == map[] <==> n >= 300
    ensures n < 300 ==> StepErrors(2, form) == map[FieldKey(InvestmentAmount) := MinimumMessage]
  {
    NumberOfNatToString(n);
    assert BelowMinimum(form.investmentAmount) <==> n < 300;
    InvestmentErrors(form);
    assert FieldKey(InvestmentAmount) in map[FieldKey(InvestmentAmount) := MinimumMessage];
  }

  /** An amount that is not a number passes step 2. */
  lemma NonNumericAmountPasses(form: Form)
    requires ToNumber(form.investmentAmount) == NaN
    ensures StepErrors(2, form) == map[]
  {
    InvestmentErrors(form);
  }

  /**
   * An amount written with an exponent, such as "2e2", converts to its
   * value: below 300 it gets the minimum message, otherwise it passes.
   */
  lemma ExponentAmount(form: Form, d: string, e: string)
    requires d != [] && AllDigits(d) && e != [] && AllDigits(e)
    requires form.investmentAmount == d + ['e'] + e
    ensures Shift(IntegerValue(d) as real, IntegerValue(e)) < 300.0 ==>
      StepErrors(2, form) == map[FieldKey(InvestmentAmount) := MinimumMessage]
    ensures Shift(IntegerValue(d) as real, IntegerValue(e)) >= 300.0 ==> StepErrors(2, form) == map[]
  {
    assert d + ['e'] + "" + e == form.investmentAmount;
    DigitsWithExponent(d, 'e', "", e);
    InvestmentErrors(form);
  }

  /** "2e2" is 200, so it gets the minimum message. */
  lemma ExponentAmountBelowMinimum(form: Form)
    requires form.investmentAmount == "2e2"
    ensures StepErrors(2, form) == map[FieldKey(InvestmentAmount) := MinimumMessage]
  {
    ExponentExample(form.investmentAmount);
    InvestmentErrors(form);
  }
}
