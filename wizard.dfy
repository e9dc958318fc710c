/**
 * The three-step onboarding wizard: basic information (step 1), investment
 * (step 2) and details (step 3). The pure part states what one handler run
 * does to the wizard's state and which requests it sends; the class
 * `CreateInvestorForm` holds that state and performs the handlers step by step.
 */
module Wizard {
  import opened Wrappers
  import opened JsValues
  import opened FormData
  import opened Validation
  import opened Payloads
  import opened Gateway

  /** A snapshot of the form component's state. */
  datatype Session = Session(
    step: int, form: Form, errors: Errors,
    investorId: Option<int>, accessLink: Option<string>)

  /** The state the component starts in: step 1, an empty form, no errors, no ids. */
  function InitialSession(): (s: Session)
    ensures s.step == 1 && s.errors == map[] && s.investorId == None && s.accessLink == None
    ensures forall f :: Get(s.form, f) == ""
  {
    Session(1, EmptyForm(), map[], None, None)
  }

  /** `profileResponse && profileResponse.id`: a present, non-zero id. */
  predicate HasTruthyId(json: Json)
  {
    json.id.Some? && json.id.value != 0
  }

  /**
   * How the remote part of a validated step ends. Steps 1 and 2 make one
   * call. Step 3 creates the profile and, when the response has a truthy id,
   * then links it; the step fails if either call fails.
   */
  function StepResult(step: int, first: Outcome, second: Outcome): Result<Json, string>
  {
    if step == 3 then
      match Settle(first)
      case Failure(m) => Failure(m)
      case Success(profile) => if HasTruthyId(profile) then Settle(second) else Success(profile)
    else Settle(first)
  }

  /** The message a step shows when the thrown error has an empty message. */
  function Fallback(step: int): string
  {
    if step == 1 then CreateFallback else if step == 2 then UpdateFallback else ProfileFallback
  }

  /**
   * The state after `handleNextStep`. The errors become the validator's
   * verdict; a step with errors, or a step outside 1..3, stops there. Else
   * a failed exchange replaces the errors by `{api: message}`, and a
   * successful one stores the new investor id and moves to step 2 (step 1),
   * stores a truthy access link and moves to step 3 (step 2), or changes
   * nothing further (step 3).
   */
  function Next(s: Session, first: Outcome, second: Outcome): Session
  {
    var verdict := StepErrors(s.step, s.form);
    if verdict != map[] || !(1 <= s.step <= 3) then s.(errors := verdict)
    else
      match StepResult(s.step, first, second)
      case Failure(m) => s.(errors := map[ApiKey := ApiMessage(m, Fallback(s.step))])
      case Success(reply) =>
        if s.step == 1 then s.(errors := verdict, step := 2, investorId := reply.id)
        else if s.step == 2 then
          s.(errors := verdict, step := 3,
             accessLink := if reply.accessLink != "" then Some(reply.accessLink) else s.accessLink)
        else s.(errors := verdict)
  }

  /**
   * The requests `handleNextStep` sends, in order: none when validation
   * fails; else the current step's call, and on step 3 the link request to
   * the new profile's id when the profile response carries a truthy one.
   */
  function Sent(s: Session, deal: Deal, readDate: string -> LocalDate, first: Outcome): seq<Call>
  {
    if StepErrors(s.step, s.form) != map[] then []
    else if s.step == 1 then [CreateInvestor(deal.id, BasicInfoBody(s.form, deal))]
    else if s.step == 2 then [UpdateInvestor(deal.id, s.investorId, InvestmentBodyOf(s.form, deal))]
    else if s.step == 3 then
      var create := CreateProfile(s.form.investorType, ProfileBodyOf(s.form, s.investorId, readDate(s.form.dateOfBirth)));
      var r := Settle(first);
      if r.Success? && HasTruthyId(r.value) then
        [create, PatchInvestor(deal.id, r.value.id.value, LinkBodyOf(r.value.id.value))]
      else [create]
    else []
  }

  /** The state after `handleInputChange(field, value)`: the field is written and its error blanked. */
  function Edited(s: Session, f: Field, value: string): Session
  {
    s.(form := Set(s.form, f, value), errors := s.errors[FieldKey(f) := ""])
  }

  /** The state after `handlePrevStep`: one step back, unless already on step 1. */
  function Back(s: Session): Session
  {
    if s.step > 1 then s.(step := s.step - 1) else s
  }

  /** A step with validation errors sends nothing and changes nothing but the errors. */
  lemma ValidationFailureBlocks(s: Session, deal: Deal, readDate: string -> LocalDate, first: Outcome, second: Outcome)
    requires StepErrors(s.step, s.form) != map[]
    ensures Sent(s, deal, readDate, first) == []
    ensures Next(s, first, second) == s.(errors := StepErrors(s.step, s.form))
  {
  }

  /**
   * The errors are replaced, never merged: afterwards they are the
   * validator's verdict, or, after a failed call, the single `api` entry.
   */
  lemma ErrorsReplacedWholesale(s: Session, first: Outcome, second: Outcome)
    ensures var e := Next(s, first, second).errors;
      e == StepErrors(s.step, s.form) || (StepErrors(s.step, s.form) == map[] && e.Keys == {ApiKey} && e[ApiKey] != "")
  {
  }

  /**
   * The step moves forward by exactly one after a successful call on step 1
   * or 2, and otherwise stays where it is; a successful step 3 stays on 3.
   */
  lemma StepAdvancesOnlyOnSuccess(s: Session, first: Outcome, second: Outcome)
    ensures Next(s, first, second).step ==
      if (s.step == 1 || s.step == 2) && StepErrors(s.step, s.form) == map[] && Settle(first).Success?
      then s.step + 1 else s.step
  {
  }

  /** Handling "next" never leaves steps 1..3. */
  lemma StepStaysInRange(s: Session, first: Outcome, second: Outcome)
    requires 1 <= s.step <= 3
    ensures 1 <= Next(s, first, second).step <= 3
  {
    StepAdvancesOnlyOnSuccess(s, first, second);
  }

  /** A successful step 3 enters no completion state: the step stays 3 and the errors empty. */
  lemma FinalStepStays(s: Session, first: Outcome, second: Outcome)
    requires s.step == 3 && StepErrors(3, s.form) == map[] && StepResult(3, first, second).Success?
    ensures Next(s, first, second) == s.(errors := map[])
  {
  }

  /**
   * The investor id is written only by a successful step 1, which always
   * writes it (with whatever id the response has); the access link only by
   * a successful step 2 whose response has a non-empty link.
   */
  lemma IdsWrittenOnlyOnSuccess(s: Session, first: Outcome, second: Outcome)
    ensures Next(s, first, second).investorId ==
      if s.step == 1 && StepErrors(1, s.form) == map[] && Settle(first).Success?
      then Settle(first).value.id else s.investorId
    ensures Next(s, first, second).accessLink ==
      if s.step == 2 && StepErrors(2, s.form) == map[] && Settle(first).Success? && Settle(first).value.accessLink != ""
      then Some(Settle(first).value.accessLink) else s.accessLink
    ensures Next(s, first, second).form == s.form
  {
  }

  /**
   * A failed call leaves step, form and ids as they were and sets the errors
   * to exactly `{api: m}`, where m is the thrown message or, if that is
   * empty, the step's fallback.
   */
  lemma RemoteFailureKeepsState(s: Session, first: Outcome, second: Outcome)
    requires 1 <= s.step <= 3 && StepErrors(s.step, s.form) == map[]
    requires StepResult(s.step, first, second).Failure?
    ensures Next(s, first, second) ==
      s.(errors := map[ApiKey := ApiMessage(StepResult(s.step, first, second).error, Fallback(s.step))])
    ensures Next(s, first, second).errors[ApiKey] != ""
  {
  }

  /**
   * On step 3 the link request is sent exactly when the profile response
   * has a truthy id, and it goes to the path of that profile id, not of the
   * investor.
   */
  lemma LinkTargetsProfileId(s: Session, deal: Deal, readDate: string -> LocalDate, first: Outcome)
    requires s.step == 3 && StepErrors(3, s.form) == map[]
    ensures |Sent(s, deal, readDate, first)| == 2 <==> Settle(first).Success? && HasTruthyId(Settle(first).value)
    ensures Sent(s, deal, readDate, first)[0] ==
      CreateProfile(s.form.investorType, ProfileBodyOf(s.form, s.investorId, readDate(s.form.dateOfBirth)))
    ensures |Sent(s, deal, readDate, first)| == 2 ==>
      var profileId := Settle(first).value.id.value;
      Sent(s, deal, readDate, first)[1] == PatchInvestor(deal.id, profileId, LinkBodyOf(profileId))
  {
  }

  /** Step 1 and 2 each send exactly one request, built from the form as it stands. */
  lemma SingleCallSteps(s: Session, deal: Deal, readDate: string -> LocalDate, first: Outcome)
    requires StepErrors(s.step, s.form) == map[]
    ensures s.step == 1 ==> Sent(s, deal, readDate, first) == [CreateInvestor(deal.id, BasicInfoBody(s.form, deal))]
    ensures s.step == 2 ==> Sent(s, deal, readDate, first) == [UpdateInvestor(deal.id, s.investorId, InvestmentBodyOf(s.form, deal))]
  {
  }

  /**
   * Going back from step 2 to step 1 and submitting again creates a second
   * investor and overwrites the stored id.
   */
  lemma ResubmissionOverwritesInvestorId(
    s: Session, deal: Deal, readDate: string -> LocalDate, first: Outcome, second: Outcome, newId: int)
    requires s.step == 2 && s.investorId.Some? && s.investorId != Some(newId)
    requires StepErrors(1, s.form) == map[]
    requires Settle(first) == Success(Json(Some(newId), "", "", ""))
    ensures Sent(Back(s), deal, readDate, first) == [CreateInvestor(deal.id, BasicInfoBody(s.form, deal))]
    ensures Next(Back(s), first, second).investorId == Some(newId) != s.investorId
    ensures Next(Back(s), first, second).step == 2
  {
  }

  /**
   * Editing a field writes it and blanks only that field's error, so an
   * `api` error survives edits until the next submission.
   */
  lemma EditKeepsApiError(s: Session, f: Field, value: string)
    ensures Get(Edited(s, f, value).form, f) == value
    ensures Edited(s, f, value).errors[FieldKey(f)] == ""
    ensures ApiKey in s.errors ==> ApiKey in Edited(s, f, value).errors && Edited(s, f, value).errors[ApiKey] == s.errors[ApiKey]
    ensures Edited(s, f, value).step == s.step && Edited(s, f, value).investorId == s.investorId
  {
  }

  /** Going back lowers the step by one from steps 2 and 3, and touches nothing else. */
  lemma BackOnlyMovesStep(s: Session)
    requires 1 <= s.step <= 3
    ensures 1 <= Back(s).step <= 3
    ensures Back(s).step == if s.step == 1 then 1 else s.step - 1
    ensures Back(s).(step := s.step) == s
  {
  }

  /** Step 1 with all four fields filled and a response `{id: 42}` stores 42 and moves to step 2. */
  lemma BasicInfoScenario(s: Session, second: Outcome)
    requires s.step == 1
    requires s.form.firstName != "" && s.form.lastName != "" && s.form.email != "" && s.form.phone != ""
    ensures var after := Next(s, Response(201, Parsed(Json(Some(42), "", "", ""))), second);
      after.investorId == Some(42) && after.step == 2 && after.errors == map[]
  {
    BasicInfoErrors(s.form);
  }

  /** Step 2 with the amount "250" is blocked with the minimum message and sends nothing. */
  lemma SmallInvestmentScenario(s: Session, deal: Deal, readDate: string -> LocalDate, first: Outcome, second: Outcome)
    requires s.step == 2 && s.form.investmentAmount == "250"
    ensures Sent(s, deal, readDate, first) == []
    ensures Next(s, first, second) == s.(errors := map[FieldKey(InvestmentAmount) := MinimumMessage])
  {
    assert NatToString(250) == "250";
    WholeDollarAmount(s.form, 250);
  }

  /** A profile request rejected with `{error: "invalid taxpayer id"}` shows that text and stays on step 3. */
  lemma RejectedProfileScenario(s: Session, second: Outcome, status: nat)
    requires s.step == 3 && StepErrors(3, s.form) == map[] && !IsOk(status)
    ensures var after := Next(s, Response(status, Parsed(Json(None, "", "", "invalid taxpayer id"))), second);
      after.errors == map[ApiKey := "invalid taxpayer id"] && after.step == 3
  {
  }

  /** The user actions the component reacts to. */
  datatype Action = Edit(field: Field, value: string) | Submit(first: Outcome, second: Outcome) | GoBack

  function Apply(s: Session, a: Action): Session
  {
    match a
    case Edit(f, v) => Edited(s, f, v)
    case Submit(first, second) => Next(s, first, second)
    case GoBack => Back(s)
  }

  /** The state after a sequence of actions, first action first. */
  function Run(s: Session, actions: seq<Action>): Session
    decreases |actions|
  {
    if actions == [] then s else Run(Apply(s, actions[0]), actions[1..])
  }

  /** Whatever the user does and whatever the server answers, the step stays within 1..3. */
  lemma {:induction false} RunKeepsStepInRange(s: Session, actions: seq<Action>)
    requires 1 <= s.step <= 3
    ensures 1 <= Run(s, actions).step <= 3
    decreases |actions|
  {
    if actions != [] {
      if actions[0].Submit? {
        StepStaysInRange(s, actions[0].first, actions[0].second);
      }
      RunKeepsStepInRange(Apply(s, actions[0]), actions[1..]);
    }
  }

  /** Whatever the user does, the investor id only ever changes through a submission on step 1. */
  lemma {:induction false} InvestorIdChangesOnlyOnStepOne(s: Session, actions: seq<Action>)
    requires Run(s, actions).investorId != s.investorId
    ensures exists k :: 0 <= k < |actions| && actions[k].Submit? && Run(s, actions[..k]).step == 1
    decreases |actions|
  {
    if actions == [] {
    } else {
      var next := Apply(s, actions[0]);
      assert Run(s, actions) == Run(next, actions[1..]);
      assert Run(s, actions[..0]) == s;
      if next.investorId == s.investorId {
        InvestorIdChangesOnlyOnStepOne(next, actions[1..]);
        var k :| 0 <= k < |actions[1..]| && actions[1..][k].Submit? && Run(next, actions[1..][..k]).step == 1;
        assert actions[..k + 1][1..] == actions[1..][..k];
        assert Run(s, actions[..k + 1]) == Run(next, actions[1..][..k]);
      } else {
        IdsWrittenOnlyOnSuccess(s, actions[0].first, actions[0].second);
      }
    }
  }

  /**
   * The form component. `deal` is the deal it was opened for; `readDate`
   * stands for `new Date(dateOfBirth)` read through the local clock, which
   * depends on the time zone and is given from outside.
   */
  class CreateInvestorForm {
    const deal: Deal
    const readDate: string -> LocalDate
    var currentStep: int
    var formData: Form
    var errors: Errors
    var investorId: Option<int>
    var accessLink: Option<string>

    ghost predicate Valid()
      reads this
    {
      1 <= currentStep <= 3
    }

    function Snapshot(): Session
      reads this
    {
      Session(currentStep, formData, errors, investorId, accessLink)
    }

    constructor (deal: Deal, readDate: string -> LocalDate)
      ensures Valid() && Snapshot() == InitialSession()
      ensures this.deal == deal && this.readDate == readDate
    {
      this.deal := deal;
      this.readDate := readDate;
      currentStep := 1;
      formData := EmptyForm();
      errors := map[];
      investorId := None;
      accessLink := None;
    }

    /** `handleInputChange(field, value)`. */
    method HandleInputChange(field: Field, value: string)
      requires Valid()
      modifies this
      ensures Valid() && Snapshot() == Edited(old(Snapshot()), field, value)
    {
      formData := Set(formData, field, value);
      errors := errors[FieldKey(field) := ""];
    }

    /**
     * `validateStep(step)`: builds the error object one check at a time,
     * stores it and reports whether it is empty.
     */
    method ValidateStep(step: int) returns (ok: bool)
      modifies this`errors
      ensures errors == StepErrors(step, formData)
      ensures ok <==> errors == map[]
    {
      var form := formData;
      var e: Errors := map[];
      if step == 1 {
        e := Require(e, form.firstName, FirstName, RequiredMessage(FirstName));
        e := Require(e, form.lastName, LastName, RequiredMessage(LastName));
        e := Require(e, form.email, Email, RequiredMessage(Email));
        e := Require(e, form.phone, Phone, RequiredMessage(Phone));
        BasicInfoInOrder(form);
      }
      if step == 2 {
        e := Require(e, form.investmentAmount, InvestmentAmount, RequiredMessage(InvestmentAmount));
        InvestmentInOrder(form);
        var amount := ToNumber(form.investmentAmount);
        if amount.Finite? && amount.v < 300.0 {
          e := e[FieldKey(InvestmentAmount) := MinimumMessage];
        }
      }
      if step == 3 {
        e := Require(e, form.investorType, InvestorType, RequiredMessage(InvestorType));
        e := Require(e, form.streetAddress, StreetAddress, RequiredMessage(StreetAddress));
        e := Require(e, form.city, City, RequiredMessage(City));
        e := Require(e, form.postalCode, PostalCode, RequiredMessage(PostalCode));
        e := Require(e, form.state, State, RequiredMessage(State));
        e := Require(e, form.country, Country, RequiredMessage(Country));
        e := Require(e, form.dateOfBirth, DateOfBirth, RequiredMessage(DateOfBirth));
        e := Require(e, form.taxpayerId, TaxpayerId, RequiredMessage(TaxpayerId));
        DetailsInOrder(form);
      }
      errors := e;
      ok := |e| == 0;
    }

    /**
     * `handleNextStep()`, with the outcome of the step's first request and,
     * on step 3, of the link request. Returns the requests sent, in order.
     */
    method HandleNextStep(first: Outcome, second: Outcome) returns (sent: seq<Call>)
      requires Valid()
      modifies this
      ensures Valid()
      ensures Snapshot() == Next(old(Snapshot()), first, second)
      ensures sent == Sent(old(Snapshot()), deal, readDate, first)
    {
      sent := [];
      var ok := ValidateStep(currentStep);
      if !ok {
        return;
      }
      if currentStep == 1 {
        var body := BasicInfoBody(formData, deal);
        sent := [CreateInvestor(deal.id, body)];
        var response := Settle(first);
        if response.Success? {
          investorId := response.value.id;
          currentStep := 2;
        } else {
          errors := map[ApiKey := ApiMessage(response.error, CreateFallback)];
        }
      } else if currentStep == 2 {
        var body := InvestmentBodyOf(formData, deal);
        sent := [UpdateInvestor(deal.id, investorId, body)];
        var response := Settle(first);
        if response.Success? {
          if response.value.accessLink != "" {
            accessLink := Some(response.value.accessLink);
          }
          currentStep := 3;
        } else {
          errors := map[ApiKey := ApiMessage(response.error, UpdateFallback)];
        }
      } else if currentStep == 3 {
        var body := ProfileBodyOf(formData, investorId, readDate(formData.dateOfBirth));
        sent := [CreateProfile(formData.investorType, body)];
        var response := Settle(first);
        if response.Success? && HasTruthyId(response.value) {
          var profileId := response.value.id.value;
          sent := sent + [PatchInvestor(deal.id, profileId, LinkBodyOf(profileId))];
          response := Settle(second);
        }
        if response.Failure? {
          errors := map[ApiKey := ApiMessage(response.error, ProfileFallback)];
        }
      }
    }

    /** `handlePrevStep()`. */
    method HandlePrevStep()
      requires Valid()
      modifies this
      ensures Valid() && Snapshot() == Back(old(Snapshot()))
    {
      if currentStep > 1 {
        currentStep := currentStep - 1;
      }
    }
  }
}
