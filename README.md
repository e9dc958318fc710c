# Investor onboarding wizard — a verified model

This project models the three-step onboarding wizard of the deal dashboard: the
React component `CreateInvestorForm`. An operator picks a deal and enters the
investor's data in three steps:

- **basic information**: first name, last name, email and phone;
- **investment**: the amount in dollars;
- **details**: investor type, address, date of birth and taxpayer id.

"Next" validates the current step and, when it passes, calls the back end:

- step 1 creates the investor;
- step 2 patches the investment;
- step 3 creates an investor profile and then links it.

"Back" returns one step. Editing a field clears that field's error.

The model is in seven modules:

- `Wrappers`: `Option` and `Result`.
- `JsValues`: the JavaScript conversions the handlers depend on. These are
  `Number(s)`, `parseFloat(s)`, `Math.round` and the decimal rendering
  `String(n)`. Numbers are exact rationals.
- `FormData`: the fourteen-field form object and the `{...form, [field]: value}`
  update.
- `Validation`: the per-step validator. `StepErrors` is the reference
  definition: a map comprehension over the fields a step requires, plus the
  step-2 minimum override. The `...InOrder` lemmas prove that the validator's
  checks, run one after another in source order, build exactly that map.
- `Payloads`: the request bodies. These are the investor record, the
  investment (`parseFloat` value, rounded security count), the profile (which
  depends on the investor type, with hyphen-free phone and `YYYY-MM-DD` date of
  birth) and the profile link.
- `Gateway`: the four request helpers. The transport is abstracted: a helper's
  outcome is a parameter (a response with a status and a body, or a network
  failure). The model keeps what the helpers decide: success is a 2xx response
  with a JSON body, and a failure's message is the body's `message`, else its
  `error`, else `HTTP error! status: N`.
- `Wizard`: the component itself. The class `CreateInvestorForm` holds the
  component's state (`currentStep`, `formData`, `errors`, `investorId`,
  `accessLink`) and has one method per handler. Each method is proved against
  the pure functions `Next`, `Sent`, `Edited` and `Back`. The lemmas beside
  them state what the wizard promises: validation blocks progress, errors are
  replaced and never merged, the step stays in 1..3, ids are written only on
  success, and which requests go out in which order. `Run` replays any
  sequence of user actions.

`handleNextStep` receives the outcomes of its remote calls as parameters
(`first`, and on step 3 `second` for the link request). It returns the
requests it sent, in order. `new Date(dateOfBirth)` depends on the local time
zone, so it is a function `readDate` given when the component is created; only
the formatting of its calendar fields is modelled.

Some of the code's behaviour is easy to misread. The model follows the code:

- **The investor id can change.** Going back to step 1 and submitting again
  creates a second investor and overwrites the stored id
  (`ResubmissionOverwritesInvestorId`).
- **There is no completion state.** The success and redirect paths after step 3
  are commented out, so a successful step 3 stays on step 3 (`FinalStepStays`).
- **Required fields are not trimmed.** The checks test only for the empty
  string, so a name made of spaces passes (`WhitespaceNamePasses`).
- **Amounts that are not numbers pass.** Step 2 compares `Number(amount) < 300`,
  which is false for NaN, so an amount that is not a number passes
  (`NonNumericAmountPasses`). A blank amount converts to 0, so it gets the
  minimum message rather than the "required" one
  (`BlankAmountGetsMinimumMessage`). An amount with an exponent, which a number
  input accepts, is read at its value: "2e2" is 200 and gets the minimum
  message (`ExponentAmountBelowMinimum`).
- **A missing id is not an error.** Step 1 stores whatever `id` the response
  has, even an absent one, and moves on (`IdsWrittenOnlyOnSuccess`). On step 3
  a profile response without a truthy id skips the link request
  (`LinkTargetsProfileId`).

## Model

| member | source | states |
|---|---|---|
| `Wizard.CreateInvestorForm.constructor` | src/components/CreateInvestorForm.jsx:5-16 | The component starts on step 1 with every field empty, no errors, no investor id and no access link. |
| `Wizard.InitialSession` | src/components/CreateInvestorForm.jsx:5-16 | The initial state has step 1, no errors, no ids, and every field is the empty string. |
| `Wizard.CreateInvestorForm.HandleInputChange` | src/components/CreateInvestorForm.jsx:20-23 | The field gets the new value and its error entry becomes ""; nothing else changes. |
| `Wizard.EditKeepsApiError` | src/components/CreateInvestorForm.jsx:20-23 | After an edit the field holds the value and its error is blank. An `api` error survives. Step and investor id are unchanged. |
| `Wizard.CreateInvestorForm.ValidateStep` | src/components/CreateInvestorForm.jsx:25-53 | The stored errors are exactly the step's error object (`StepErrors`). The method returns true exactly when that object is empty. |
| `Validation.CheckOneMore` | src/components/CreateInvestorForm.jsx:29-48 | Checking one more field adds its "... is required" entry exactly when the field is the empty string. |
| `Validation.BasicInfoInOrder` | src/components/CreateInvestorForm.jsx:28-33 | Step 1's four checks, in the validator's order, build exactly the reference error object. |
| `Validation.InvestmentInOrder` | src/components/CreateInvestorForm.jsx:35-36 | Step 2's presence check builds exactly the reference object before the minimum override. |
| `Validation.DetailsInOrder` | src/components/CreateInvestorForm.jsx:40-49 | Step 3's eight checks, in the validator's order, build exactly the reference error object. |
| `Validation.ErrorsAreRequiredFields` | src/components/CreateInvestorForm.jsx:25-53 | The validator never reports `api`, and reports only fields the step requires. |
| `Validation.BasicInfoErrors` | src/components/CreateInvestorForm.jsx:28-33 | Step 1 reports a field exactly when it is one of the four and is empty, each with its own message. The step passes exactly when all four are non-empty. |
| `Validation.WhitespaceNamePasses` | src/components/CreateInvestorForm.jsx:29 | A first name of one space is not reported: there is no trimming. |
| `Validation.DetailsErrors` | src/components/CreateInvestorForm.jsx:40-49 | Step 3 reports a field exactly when it is one of investor type, street address, city, postal code, state, country, date of birth and taxpayer id and is empty, each with its own message. The unit is never reported. |
| `Validation.UnitNeverChecked` | src/components/CreateInvestorForm.jsx:25-53 | No step's verdict depends on the unit. |
| `Validation.MissingFieldsAgree` | src/components/CreateInvestorForm.jsx:25-53 | The missing-field report reads only the fields the step requires. |
| `Validation.MissingAmount` | src/components/CreateInvestorForm.jsx:36 | Before the override, step 2 reports the amount's "required" message exactly when the amount is empty. |
| `Validation.InvestmentErrors` | src/components/CreateInvestorForm.jsx:35-38 | Step 2 reports only the minimum message when `Number(amount) < 300`, and nothing otherwise. |
| `Validation.AmountBelowMinimum` | src/components/CreateInvestorForm.jsx:35-38 | An amount below the minimum leaves the one-entry object holding the minimum message. |
| `Validation.AmountNotBelowMinimum` | src/components/CreateInvestorForm.jsx:35-38 | An amount that is not below the minimum leaves step 2 with no errors. |
| `Validation.BlankAmountBelowMinimum` | src/components/CreateInvestorForm.jsx:37 | An empty amount converts to 0, which is below 300. |
| `Validation.BlankAmountGetsMinimumMessage` | src/components/CreateInvestorForm.jsx:36-37 | An empty amount ends with the minimum message, which overrides the "required" message. |
| `Validation.WholeDollarAmount` | src/components/CreateInvestorForm.jsx:37 | A whole-dollar amount passes step 2 exactly when it is at least 300. Below 300 the error object is just the minimum message. |
| `Validation.NonNumericAmountPasses` | src/components/CreateInvestorForm.jsx:37 | An amount that `Number` reads as NaN passes step 2. |
| `Validation.ExponentAmount` | src/components/CreateInvestorForm.jsx:37 | An amount of digits, `e` and digits is read as its value: below 300 it ends with just the minimum message, otherwise step 2 passes. |
| `Validation.ExponentAmountBelowMinimum` | src/components/CreateInvestorForm.jsx:37 | "2e2" is 200, so step 2 ends with just the minimum message. |
| `Wizard.CreateInvestorForm.HandleNextStep` | src/components/CreateInvestorForm.jsx:142-259 | The new state is `Next` of the old state and the call outcomes. The requests returned are `Sent` of the old state, in order. The step stays in 1..3. |
| `Wizard.ValidationFailureBlocks` | src/components/CreateInvestorForm.jsx:143 | A step with validation errors sends nothing and changes only the errors. |
| `Wizard.ErrorsReplacedWholesale` | src/components/CreateInvestorForm.jsx:142-259 | After "next", the errors are the validator's verdict. After a failed call they are exactly `{api: m}` with m non-empty. |
| `Wizard.StepAdvancesOnlyOnSuccess` | src/components/CreateInvestorForm.jsx:142-259 | The step rises by exactly one after a valid step 1 or 2 whose call succeeds. Otherwise it stays. |
| `Wizard.StepStaysInRange` | src/components/CreateInvestorForm.jsx:142-259 | "Next" never leaves steps 1..3. |
| `Wizard.FinalStepStays` | src/components/CreateInvestorForm.jsx:183-258 | A successful step 3 stays on step 3 with no errors: there is no completion state. |
| `Wizard.IdsWrittenOnlyOnSuccess` | src/components/CreateInvestorForm.jsx:157-177 | Only a successful step 1 writes the investor id, and it writes whatever id the response has. Only a successful step 2 with a non-empty link writes the access link. The form never changes. |
| `Wizard.RemoteFailureKeepsState` | src/components/CreateInvestorForm.jsx:160-254 | In each of the three catch blocks (lines 160-161, 178-179 and 253-254), a failed call keeps step, form and ids. The errors become `{api: m}`, where m is the thrown message or else that step's fallback. |
| `Wizard.LinkTargetsProfileId` | src/components/CreateInvestorForm.jsx:234-244 | On step 3 the profile request goes first. The link request follows exactly when the response has a truthy id, and it targets that profile id. |
| `Wizard.SingleCallSteps` | src/components/CreateInvestorForm.jsx:145-173 | Steps 1 and 2 send exactly one request each, built from the current form. |
| `Wizard.ResubmissionOverwritesInvestorId` | src/components/CreateInvestorForm.jsx:145-159 | Going back to step 1 and submitting again creates a second investor and overwrites the stored id. |
| `Wizard.BasicInfoScenario` | src/components/CreateInvestorForm.jsx:145-159 | Step 1 with the four fields filled and response `{id: 42}` stores 42 and moves to step 2. |
| `Wizard.SmallInvestmentScenario` | src/components/CreateInvestorForm.jsx:36-37 | Step 2 with amount "250" sends nothing. The errors become just the minimum message. |
| `Wizard.RejectedProfileScenario` | src/components/CreateInvestorForm.jsx:130-133 | A non-2xx profile response with `{error: "invalid taxpayer id"}` shows that text under `api`, and the step stays 3. |
| `Wizard.CreateInvestorForm.HandlePrevStep` | src/components/CreateInvestorForm.jsx:261-263 | The step goes back one unless it is 1. Nothing else changes. |
| `Wizard.BackOnlyMovesStep` | src/components/CreateInvestorForm.jsx:261-263 | "Back" lowers step 2 or 3 by one, keeps step 1, and touches nothing but the step. |
| `Wizard.RunKeepsStepInRange` | src/components/CreateInvestorForm.jsx:142-263 | Over any sequence of edits, submissions and back moves, the step stays in 1..3. |
| `Wizard.InvestorIdChangesOnlyOnStepOne` | src/components/CreateInvestorForm.jsx:145-159 | If the investor id changed over a sequence of actions, one of them was a submission made on step 1. |
| `Payloads.PhoneMapping` | src/components/CreateInvestorForm.jsx:148-199 | Step 1 sends the phone as typed. Step 3 sends it with every hyphen removed. |
| `Payloads.StripHyphens` | src/components/CreateInvestorForm.jsx:199 | The result contains no hyphen and holds exactly the input's other characters, each as often as in the input. |
| `Payloads.StripHyphensAppend` | src/components/CreateInvestorForm.jsx:199 | Stripping distributes over concatenation, so the other characters keep their order. |
| `Payloads.StripHyphensWithoutHyphens` | src/components/CreateInvestorForm.jsx:199 | A phone with no hyphen is sent unchanged. |
| `Payloads.StripHyphensIdempotent` | src/components/CreateInvestorForm.jsx:199 | Stripping twice is stripping once. |
| `Payloads.JsonNumber` | src/components/CreateInvestorForm.jsx:169 | A NaN value is sent as null. A finite value is sent as itself. |
| `Payloads.SecurityCount` | src/components/CreateInvestorForm.jsx:170 | The count is null exactly when the amount is NaN or the price is 0. Otherwise it is within one half of amount / price, halves rounded up. |
| `Payloads.SecurityCountExamples` | src/components/CreateInvestorForm.jsx:170 | 1000 at 250 gives 4, 1000 at 300 gives 3, and 350 at 100 gives 4. |
| `Payloads.WholeDollarInvestmentBody` | src/components/CreateInvestorForm.jsx:168-171 | For a whole-dollar amount, the investment value is the amount and the count is the rounded quotient. |
| `Payloads.ExponentInvestmentBody` | src/components/CreateInvestorForm.jsx:168-171 | For an amount written with an exponent, such as "1e3", the investment value is its value (1000) and the count is the rounded quotient of that value. |
| `Payloads.PadTwo` | src/components/CreateInvestorForm.jsx:189 | A number under 100 becomes exactly two digits that read back to it. |
| `Payloads.FormatDateRoundTrip` | src/components/CreateInvestorForm.jsx:187-190 | For a four-digit year, the formatted date is ten characters of the form `YYYY-MM-DD` and reads back to the same year, month and day. |
| `Payloads.DateOfBirthScenario` | src/components/CreateInvestorForm.jsx:194-211 | An individual profile sends a birth date of 7 May 1990 as "1990-05-07". |
| `Payloads.InvalidDateIsNotIso` | src/components/CreateInvestorForm.jsx:187-190 | An invalid date, printed `NaN-NaN-NaN`, never reads back as a date. |
| `Payloads.ProfileShape` | src/components/CreateInvestorForm.jsx:192-232 | "individuals" gets the shared fields plus a profile id equal to the investor id. "joints" gets the shared fields alone. Any other type sends an empty object. The shared fields send the state as the region, the type as the investor info, the formatted birth date, and the unit as typed, so an empty unit is sent as "". |
| `Payloads.LinkBodyNamesProfile` | src/components/CreateInvestorForm.jsx:238-241 | The link body names the new profile and the "contact-information" step. Distinct profiles give distinct bodies. |
| `Gateway.Settle` | src/components/CreateInvestorForm.jsx:63-67 | A call succeeds exactly on a 2xx response with a JSON body, returning that body. A non-2xx response fails with the HTTP error message. |
| `Gateway.HttpErrorMessage` | src/components/CreateInvestorForm.jsx:63-65 | A non-2xx response always yields a non-empty message. |
| `Gateway.HttpFailureMessage` | src/components/CreateInvestorForm.jsx:63-65 | The fallback is never shown for a non-2xx response. Without a server message, the text is the prefix followed by the status, and `Number` reads the status back. |
| `Gateway.ServerMessagePrecedence` | src/components/CreateInvestorForm.jsx:65 | The body's `message` wins over its `error`, which wins over the status text. |
| `Gateway.ApiMessage` | src/components/CreateInvestorForm.jsx:161 | The shown message is the thrown one when that is non-empty, and the fallback exactly when it is empty (the same choice recurs at lines 179 and 254). It is never empty when the fallback is not. |
| `Gateway.OtherFailureMessage` | src/components/CreateInvestorForm.jsx:55-67 | A rejected `fetch` or a 2xx body that is not JSON fails, and shows its own message, or the fallback when that message is empty. |
| `FormData.EmptyForm` | src/components/CreateInvestorForm.jsx:6-11 | Every field of the initial form is the empty string. |
| `FormData.Set` | src/components/CreateInvestorForm.jsx:21 | The edited field reads back the new value, and every other field is unchanged. |
| `FormData.SetSameValue` | src/components/CreateInvestorForm.jsx:21 | Writing back a field's current value changes nothing. |
| `JsValues.NatToString` | src/components/CreateInvestorForm.jsx:65 | `String(n)` is a non-empty digit string without a leading zero, and has one digit exactly when n < 10. |
| `JsValues.IntegerValueOfNatToString` | src/components/CreateInvestorForm.jsx:65 | Reading back the digits of `String(n)` gives n. |
| `JsValues.NatToStringLength` | src/components/CreateInvestorForm.jsx:189 | Numbers below 10 have one digit, 10..99 two, and 1000..9999 four. |
| `JsValues.IntToString` | src/components/CreateInvestorForm.jsx:189 | `String(i)` starts with a minus sign exactly when i is negative. |
| `JsValues.TrimStart` | src/components/CreateInvestorForm.jsx:169 | Only leading white space is removed, and the result does not start with white space. |
| `JsValues.TrimEnd` | src/components/CreateInvestorForm.jsx:37 | Only trailing white space is removed, and the result does not end with white space. |
| `JsValues.LeadingDigits` | src/components/CreateInvestorForm.jsx:169 | The count of the maximal run of digits at the front. |
| `JsValues.FractionValue` | src/components/CreateInvestorForm.jsx:37 | The digits after a decimal point are worth at least 0 and less than 1. |
| `JsValues.RoundHalfUp` | src/components/CreateInvestorForm.jsx:170 | `Math.round(x)` is the integer r with r - 1/2 <= x < r + 1/2. |
| `JsValues.BlankIsZero` | src/components/CreateInvestorForm.jsx:37 | `Number` of a blank or all-white-space string is 0. |
| `JsValues.TrimDigits` | src/components/CreateInvestorForm.jsx:37 | A string that starts and ends with a digit has nothing to trim. |
| `JsValues.NumberOfNatToString` | src/components/CreateInvestorForm.jsx:37 | `Number(String(n))` is n. |
| `JsValues.DigitStringValue` | src/components/CreateInvestorForm.jsx:169-170 | `Number` and `parseFloat` both read a digit string as its integer value. |
| `JsValues.MantissaLength` | src/components/CreateInvestorForm.jsx:169 | The mantissa at the front of a string is never shorter than its leading digits and never longer than the string. |
| `JsValues.ExponentLength` | src/components/CreateInvestorForm.jsx:169 | An exponent part is absent, or at least a mark and one character long and within the string. |
| `JsValues.LiteralAppend` | src/components/CreateInvestorForm.jsx:169 | A whole literal followed by anything but a digit, a point or an exponent mark keeps its length and value. |
| `JsValues.DecimalPrefixOfLiteral` | src/components/CreateInvestorForm.jsx:169 | `parseFloat` reads a whole decimal literal, followed by anything but a digit, a point or an exponent mark, as the value `Number` gives the literal alone. |
| `JsValues.DigitsWithExponent` | src/components/CreateInvestorForm.jsx:169-170 | Digits, `e` or `E`, an optional sign and more digits: `Number` and `parseFloat` both read the first digits times ten to the power of the second, negated after a minus sign. |
| `JsValues.IncompleteExponent` | src/components/CreateInvestorForm.jsx:169-170 | Digits followed by a bare exponent mark: `Number` gives NaN, while `parseFloat` stops before the mark and reads the digits. |
| `JsValues.ExponentExample` | src/components/CreateInvestorForm.jsx:37 | "2e2" is 200 to both conversions. |
| `JsValues.NegativeExponentExample` | src/components/CreateInvestorForm.jsx:169-170 | "5e-1" is 0.5 to both conversions. |
| `JsValues.IncompleteExponentExample` | src/components/CreateInvestorForm.jsx:169-170 | "1e" is NaN to `Number` and 1 to `parseFloat`. |
| `JsValues.ParseFloatAgreesWithNumber` | src/components/CreateInvestorForm.jsx:169-170 | On every non-blank string that `Number` reads as finite, `parseFloat` reads the same value. So the investment value and the security count use the same amount. |

## Left out

- Transport: `fetch`, the URL paths, the headers and the JSON and form encodings of the bodies. Each request appears only as a `Call` value, and its outcome is a parameter.
- `console.log` and `console.error` calls. They have no effect on state.
- `loading` and `success`. `loading` is true only while a handler awaits its calls, and each handler is modelled as one atomic step, so no state in the model has it true. `success` is never set, because its code path is commented out. The JSX rendering is left out too.
- `new Date(dateOfBirth)` and the local time zone: they are the parameter `readDate`.
- JavaScript numbers are modelled as exact rationals, not IEEE doubles. Rounding of floating-point division is not modelled.
- `JsValues.ToNumber`: `Infinity` and hexadecimal, binary and octal literals (`0x10`, `0b1`, `0o7`) read as NaN here, while `Number` accepts them. Exponent forms are modelled. An exponent that overflows a double (`1e400`) gives its exact value here, while `Number` gives `Infinity`.
- `JsValues.ParseFloat`: `Infinity` reads as no literal here, while `parseFloat` accepts it. Exponent forms are modelled, including a bare mark that it stops before (`"1e"` is 1).
- Response bodies whose `message`, `error`, `access_link` or `id` is not a string or integer. A non-object JSON body (`null`, a number) is not modelled either. An absent id and a `null` id are both `None`, so `Number(null) = 0` is not distinguished from `Number(undefined) = NaN`.
- The deal list, the dashboard shell and the other components, which are not part of this model.
