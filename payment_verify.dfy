/**
 * POST /api/payment/verify: asks the gateway whether the payment for a
 * booking reference went through, and reports `{ success, verified }`.
 */
module PaymentVerify {
  import opened Wrappers
  import opened Js
  import opened Gateway
  import Text

  const MissingRefMessage: string := "Missing customRef (bookingId)"
  const NotConfiguredMessage: string := "Payment gateway not configured"

  /** JSON body of the response. */
  datatype Body =
    | ErrorBody(error: string)
    /** `{ success: false, verified: false }`: the gateway answered with a failure status. */
    | Unverified
    /** `{ success: true, verified, customRef, details }` */
    | Checked(verified: bool, customRef: Value, details: Value)
    /** `{ error: error.message, success: false, verified: false }` */
    | Crashed(error: string)

  datatype Response = Response(status: int, body: Body)

  datatype Exchange = Exchange(call: Option<Call>, response: Response)

  /** `await req.json()` then `const { customRef } = body`. */
  function ReadRef(json: Result<Value, string>): Result<Value, string>
  {
    match json
    case Failure(m) => Failure(m)
    case Success(v) =>
      match Destructure(v, "customRef")
      case Failure(m) => Failure(m)
      case Success(r) => Success(Field(r, "customRef"))
  }

  function VerifyPrefix(env: Env): string
    requires Configured(env)
  {
    GatewayBase(env) + "/receipt/transaction?store_id=" + env.gatewayId.value + "&custom_ref="
  }

  /** The reference goes into the URL as its string, without encoding. */
  function VerifyUrl(env: Env, customRef: Value): string
    requires Configured(env)
  {
    VerifyPrefix(env) + ToStr(customRef)
  }

  /** `data.result === 'success'` */
  predicate IsSuccess(result: Value)
  {
    result == Str("success")
  }

  /** The response once the gateway has been called. */
  function Translate(customRef: Value, reply: Reply): (r: Response)
    ensures r.status == 500 <==> r.body.Crashed?
    // A thrown error is a 500 carrying the error's message: the gateway unreachable,
    // an unreadable body, or a null payload whose "result" cannot be read.
    ensures reply.Unreachable? ==> r == Response(500, Crashed(reply.message))
    ensures reply.Replied? && Ok(reply.status) && reply.json.Failure? ==>
      r == Response(500, Crashed(reply.json.error))
    ensures reply.Replied? && Ok(reply.status) && reply.json.Success? && Nullish(reply.json.value) ==>
      r == Response(500, Crashed(GetProp(reply.json.value, "result").error))
    // A failure status from the gateway is still HTTP 200, unverified.
    ensures reply.Replied? && !Ok(reply.status) ==> r == Response(200, Unverified)
    ensures r.body.Checked? <==>
      reply.Replied? && Ok(reply.status) && reply.json.Success? && !Nullish(reply.json.value)
    // An answer that could be read: success whatever the result; verified iff the result is "success".
    ensures r.body.Checked? ==>
      && r.status == 200
      && r.body.customRef == customRef
      && r.body.details == reply.json.value
      && (r.body.verified <==> GetProp(reply.json.value, "result") == Success(Str("success")))
  {
    match reply
    case Unreachable(m) => Response(500, Crashed(m))
    case Replied(status, _, json) =>
      if !Ok(status) then Response(200, Unverified)
      else
        match json
        case Failure(m) => Response(500, Crashed(m))
        case Success(data) =>
          match GetProp(data, "result")
          case Failure(m) => Response(500, Crashed(m))
          case Success(result) => Response(200, Checked(IsSuccess(result), customRef, data))
  }

  /** The route handler, with the gateway's reply as an input. */
  function Verify(env: Env, json: Result<Value, string>, reply: Reply): (x: Exchange)
    ensures ReadRef(json).Failure? ==> x == Exchange(None, Response(500, Crashed(ReadRef(json).error)))
    // A missing reference is a 400 and the gateway is not called.
    ensures ReadRef(json).Success? && !Truthy(ReadRef(json).value) ==>
      x == Exchange(None, Response(400, ErrorBody(MissingRefMessage)))
    ensures (ReadRef(json).Success? && Truthy(ReadRef(json).value) && !Configured(env)) ==>
      x == Exchange(None, Response(500, ErrorBody(NotConfiguredMessage)))
    ensures x.call.Some? <==> ReadRef(json).Success? && Truthy(ReadRef(json).value) && Configured(env)
    ensures x.call.Some? ==>
      && x.call.value == Call(VerifyUrl(env, ReadRef(json).value), Authorization(env))
      && x.response == Translate(ReadRef(json).value, reply)
  {
    match ReadRef(json)
    case Failure(m) => Exchange(None, Response(500, Crashed(m)))
    case Success(customRef) =>
      if !Truthy(customRef) then Exchange(None, Response(400, ErrorBody(MissingRefMessage)))
      else if !Configured(env) then Exchange(None, Response(500, ErrorBody(NotConfiguredMessage)))
      else Exchange(Some(Call(VerifyUrl(env, customRef), Authorization(env))), Translate(customRef, reply))
  }

  /**
   * The reference is inserted verbatim: a reference holding `&` or `=` changes
   * the parameters the gateway reads. A reference whose text has an `&` gives the
   * gateway more than the two parameters the handler meant to send.
   */
  lemma RefIsNotEncoded(env: Env, customRef: Value)
    requires Configured(env)
    requires '&' !in env.gatewayId.value
    requires '&' in ToStr(customRef)
    ensures var url := VerifyUrl(env, customRef); var prefix := GatewayBase(env) + "/receipt/transaction?";
      prefix <= url && |Text.Split(url[|prefix|..], '&')| > 2
  {
    var prefix := GatewayBase(env) + "/receipt/transaction?";
    var ref := ToStr(customRef);
    var id := env.gatewayId.value;
    var url := VerifyUrl(env, customRef);
    assert url == prefix + ("store_id=" + id) + ['&'] + ("custom_ref=" + ref);
    assert url[|prefix|..] == ("store_id=" + id) + ['&'] + ("custom_ref=" + ref);
    assert '&' !in "store_id=" + id;
    Text.SplitAfterPiece("store_id=" + id, '&', "custom_ref=" + ref);
    SplitCountsSeparator("custom_ref=" + ref, '&');
  }

  /** A text holding the separator splits into at least two pieces. */
  lemma {:induction false} SplitCountsSeparator(s: string, sep: char)
    requires sep in s
    ensures |Text.Split(s, sep)| >= 2
  {
    if s[0] != sep {
      SplitCountsSeparator(s[1..], sep);
    }
  }

  /** The test script's expectations: an empty body is a 400 with an error, and a
   *  reference the gateway does not know is HTTP 200 with success and verified false. */
  lemma EmptyBodyIsBadRequest(env: Env, reply: Reply)
    ensures var x := Verify(env, Success(Obj(map[])), reply);
      x.response.status == 400 && x.response.body.ErrorBody? && x.call.None?
  {
  }

  lemma UnknownRefIsUnverified(env: Env, ref: string, status: int, text: Result<string, string>, payload: Result<Value, string>)
    requires Configured(env) && ref != "" && !Ok(status)
    ensures var x := Verify(env, Success(Obj(map["customRef" := Str(ref)])), Replied(status, text, payload));
      x.call.Some? && x.response == Response(200, Unverified)
  {
  }
}
