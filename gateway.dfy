/**
 * The four request helpers, with the transport abstracted: each call is
 * described by the request it sends, and its outcome is given from outside.
 * What the helpers decide themselves is kept: which responses count as
 * success and which message a failure carries.
 */
module Gateway {
  import opened Wrappers
  import opened JsValues
  import opened Payloads

  /**
   * The fields of a parsed JSON response body the form looks at. An absent
   * or falsy string is "", an absent id is `None`.
   */
  datatype Json = Json(id: Option<int>, accessLink: string, message: string, error: string)

  /** A response body: parsed JSON, or text that `response.json()` rejects with a SyntaxError. */
  datatype Body = Parsed(json: Json) | Unparsable(syntaxError: string)

  /** How a request ends: a response with a status and a body, or a rejected `fetch`. */
  datatype Outcome = Response(status: nat, body: Body) | NetworkFailure(reason: string)

  /** The requests the wizard sends; paths are relative to `/api`. */
  datatype Call =
    | CreateInvestor(dealId: int, investor: InvestorBody)                                  // POST /deals/{dealId}/investors
    | UpdateInvestor(dealId: int, investorId: Option<int>, investment: InvestmentBody)    // PATCH /deals/{dealId}/investors/{investorId}, JSON
    | CreateProfile(category: string, profile: ProfileBody)                               // POST /investor_profiles/{category}
    | PatchInvestor(dealId: int, target: int, link: LinkBody)                             // PATCH /deals/{dealId}/investors/{target}, form-encoded

  /** `response.ok`. */
  predicate IsOk(status: nat) { 200 <= status <= 299 }

  const HttpErrorPrefix: string := "HTTP error! status: "

  /**
   * The message thrown for a non-2xx response: the body's `message`, else its
   * `error`, else "HTTP error! status: N". A body that is not JSON counts as `{}`.
   */
  function HttpErrorMessage(body: Body, status: nat): (m: string)
    ensures m != ""
  {
    var json := if body.Parsed? then body.json else Json(None, "", "", "");
    if json.message != "" then json.message
    else if json.error != "" then json.error
    else HttpErrorPrefix + NatToString(status)
  }

  /**
   * What a helper returns or throws for an outcome: the parsed body of a 2xx
   * response, else the thrown error's message.
   */
  function Settle(o: Outcome): (r: Result<Json, string>)
    ensures r.Success? <==> o.Response? && IsOk(o.status) && o.body.Parsed?
    ensures r.Success? ==> r.value == o.body.json
    ensures o.Response? && !IsOk(o.status) ==> r == Failure(HttpErrorMessage(o.body, o.status))
  {
    match o
    case NetworkFailure(reason) => Failure(reason)
    case Response(status, body) =>
      if !IsOk(status) then Failure(HttpErrorMessage(body, status))
      else if body.Unparsable? then Failure(body.syntaxError)
      else Success(body.json)
  }

  const CreateFallback: string := "Failed to create investor. Please try again."
  const UpdateFallback: string := "Failed to update investment amount. Please try again."
  const ProfileFallback: string := "Failed to complete investor profile."

  /** `error.message || fallback`: the message shown under `api`. */
  function ApiMessage(thrown: string, fallback: string): (m: string)
    ensures m != "" || fallback == ""
    ensures thrown != "" ==> m == thrown
    ensures thrown == "" ==> m == fallback
  {
    if thrown != "" then thrown else fallback
  }

  /**
   * A non-2xx response always carries a message of its own, so the
   * handler's fallback is never shown for it; and when the server names no
   * message, the status can be read back from the text.
   */
  lemma HttpFailureMessage(o: Outcome, fallback: string)
    requires o.Response? && !IsOk(o.status)
    ensures Settle(o).Failure? && ApiMessage(Settle(o).error, fallback) == Settle(o).error
    ensures var json := if o.body.Parsed? then o.body.json else Json(None, "", "", "");
      json.message == "" && json.error == "" ==>
        var m := Settle(o).error;
        |m| > |HttpErrorPrefix| && m[..|HttpErrorPrefix|] == HttpErrorPrefix &&
        ToNumber(m[|HttpErrorPrefix|..]) == Finite(o.status as real)
  {
    var m := HttpErrorMessage(o.body, o.status);
    var digits := NatToString(o.status);
    if m == HttpErrorPrefix + digits {
      assert m[|HttpErrorPrefix|..] == digits;
      assert m[..|HttpErrorPrefix|] == HttpErrorPrefix;
      NumberOfNatToString(o.status);
    }
  }

  /** The server's `message` wins over its `error`, which wins over the status text. */
  lemma ServerMessagePrecedence(status: nat, json: Json)
    requires !IsOk(status)
    ensures json.message != "" ==> Settle(Response(status, Parsed(json))).error == json.message
    ensures json.message == "" && json.error != "" ==> Settle(Response(status, Parsed(json))).error == json.error
  {
  }

  /**
   * A rejected `fetch` or a 2xx body that is not JSON shows the thrown
   * message, or the handler's fallback when that message is empty.
   */
  lemma OtherFailureMessage(o: Outcome, fallback: string)
    requires o.NetworkFailure? || (o.Response? && IsOk(o.status) && o.body.Unparsable?)
    ensures Settle(o).Failure?
    ensures var thrown := if o.NetworkFailure? then o.reason else o.body.syntaxError;
      ApiMessage(Settle(o).error, fallback) == if thrown != "" then thrown else fallback
  {
  }
}
