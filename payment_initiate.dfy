/**
 * POST /api/payment/initiate: validates a booking payment request, asks the
 * gateway for a payment page and translates the gateway's answer into the
 * route's HTTP response.
 */
module PaymentInitiate {
  import opened Wrappers
  import opened Js
  import opened Gateway
  import FormEncoding

  const MissingFieldsMessage: string := "Missing required fields: bookingId, amount, email"
  const NotConfiguredMessage: string := "Payment gateway not configured"
  const InvalidAmountMessage: string := "Invalid amount"
  const GatewayFailedMessage: string := "Payment gateway request failed"
  const InternalErrorMessage: string := "Internal server error"

  /** The destructured request body. */
  datatype Fields = Fields(bookingId: Value, amount: Value, email: Value, phone: Value)

  /** JSON body of the response. */
  datatype Body =
    | ErrorBody(error: string)
    /** `{ success: true, paymentUrl, customRef }` */
    | Started(paymentUrl: Value, customRef: Value)

  datatype Response = Response(status: int, body: Body)

  /** The gateway call the handler made, if it got that far, and its response. */
  datatype Exchange = Exchange(call: Option<Call>, response: Response)

  /** `await req.json()` then `const { bookingId, amount, email, phone } = body`. */
  function ReadFields(json: Result<Value, string>): Result<Fields, string>
  {
    match json
    case Failure(m) => Failure(m)
    case Success(v) =>
      match Destructure(v, "bookingId")
      case Failure(m) => Failure(m)
      case Success(r) =>
        Success(Fields(Field(r, "bookingId"), Field(r, "amount"), Field(r, "email"), Field(r, "phone")))
  }

  predicate HasRequired(f: Fields)
  {
    Truthy(f.bookingId) && Truthy(f.amount) && Truthy(f.email)
  }

  /** `typeof amount === 'number' && amount > 0` */
  predicate ValidAmount(amount: Value)
  {
    amount.Num? && amount.n > 0
  }

  /** Every check passed: the handler goes on to call the gateway. */
  predicate Proceeds(env: Env, f: Fields)
  {
    HasRequired(f) && Configured(env) && ValidAmount(f.amount)
  }

  /** `error.message || 'Internal server error'` */
  function ThrownMessage(message: string): (r: string)
    ensures r != ""
    ensures message != "" ==> r == message
  {
    if message != "" then message else InternalErrorMessage
  }

  function CallbackUrl(env: Env): string
  {
    AppBase(env) + "/api/payment/callback"
  }

  function ReturnUrl(env: Env): string
  {
    AppBase(env) + "/payment/success"
  }

  /** The parameters, in order, handed to `URLSearchParams`; each value becomes its string. */
  function Query(env: Env, f: Fields): seq<(string, string)>
    requires Configured(env) && ValidAmount(f.amount)
  {
    [ ("id", env.gatewayId.value),
      ("amount", NatToDecimal(f.amount.n)),
      ("phone", ToStr(Or(f.phone, Str("")))),
      ("email", ToStr(f.email)),
      ("backend_url", CallbackUrl(env)),
      ("frontend_url", ReturnUrl(env)),
      ("custom_ref", ToStr(f.bookingId)) ]
  }

  function InitiatePrefix(env: Env): string
  {
    GatewayBase(env) + "/payment/initiate?"
  }

  function GatewayCall(env: Env, f: Fields): Call
    requires Configured(env) && ValidAmount(f.amount)
  {
    Call(InitiatePrefix(env) + FormEncoding.Serialize(Query(env, f)), Authorization(env))
  }

  /**
   * Whether `NextResponse.json(body, { status })` can build a response with
   * that status. The Response constructor of the Fetch standard throws for a
   * status outside 200-599, and for a body paired with one of the null-body
   * statuses 204, 205 and 304.
   */
  predicate JsonStatusAllowed(status: int)
  {
    200 <= status <= 599 && status != 204 && status != 205 && status != 304
  }

  /**
   * The response once the gateway has been called. `refusal` is the message of
   * the error the runtime throws when it cannot build a response with the
   * gateway's status.
   */
  function Translate(f: Fields, reply: Reply, refusal: string): (r: Response)
    // A thrown error is a 500 carrying the error's message: the gateway unreachable,
    // an unreadable body, or a null payload whose "url" cannot be read.
    ensures reply.Unreachable? ==> r == Response(500, ErrorBody(ThrownMessage(reply.message)))
    ensures reply.Replied? && Ok(reply.status) && reply.json.Failure? ==>
      r == Response(500, ErrorBody(ThrownMessage(reply.json.error)))
    ensures reply.Replied? && Ok(reply.status) && reply.json.Success? && Nullish(reply.json.value) ==>
      r == Response(500, ErrorBody(ThrownMessage(GetProp(reply.json.value, "url").error)))
    // A non-2xx reply is that status with the gateway-failed error, once its text has been read for the log.
    ensures reply.Replied? && !Ok(reply.status) && reply.text.Success? && JsonStatusAllowed(reply.status) ==>
      r == Response(reply.status, ErrorBody(GatewayFailedMessage))
    // A status the response cannot carry (304, or outside 200-599) throws, and the catch answers 500.
    ensures reply.Replied? && !Ok(reply.status) && reply.text.Success? && !JsonStatusAllowed(reply.status) ==>
      r == Response(500, ErrorBody(ThrownMessage(refusal)))
    // Every response this function gives is one the runtime can build.
    ensures JsonStatusAllowed(r.status)
    ensures reply.Replied? && !Ok(reply.status) && reply.text.Failure? ==>
      r == Response(500, ErrorBody(ThrownMessage(reply.text.error)))
    ensures r.body.Started? <==>
      reply.Replied? && Ok(reply.status) && reply.json.Success? && !Nullish(reply.json.value)
    ensures r.body.Started? ==>
      r.status == 200 && r.body.customRef == f.bookingId
      && GetProp(reply.json.value, "url") == Success(r.body.paymentUrl)
  {
    match reply
    case Unreachable(m) => Response(500, ErrorBody(ThrownMessage(m)))
    case Replied(status, text, json) =>
      if !Ok(status) then
        match text
        case Failure(m) => Response(500, ErrorBody(ThrownMessage(m)))
        case Success(_) =>
          if JsonStatusAllowed(status) then Response(status, ErrorBody(GatewayFailedMessage))
          else Response(500, ErrorBody(ThrownMessage(refusal)))
      else
        match json
        case Failure(m) => Response(500, ErrorBody(ThrownMessage(m)))
        case Success(data) =>
          match GetProp(data, "url")
          case Failure(m) => Response(500, ErrorBody(ThrownMessage(m)))
          case Success(url) => Response(200, Started(url, f.bookingId))
  }

  /** The route handler, with the gateway's reply and the runtime's refusal message as inputs. */
  function Initiate(env: Env, json: Result<Value, string>, reply: Reply, refusal: string): (x: Exchange)
    // An unreadable body is an exception: 500 with its message.
    ensures ReadFields(json).Failure? ==>
      x == Exchange(None, Response(500, ErrorBody(ThrownMessage(ReadFields(json).error))))
    // The gateway is called exactly when every check passes.
    ensures x.call.Some? <==> ReadFields(json).Success? && Proceeds(env, ReadFields(json).value)
    ensures x.call.Some? ==>
      x.call.value == GatewayCall(env, ReadFields(json).value)
      && x.response == Translate(ReadFields(json).value, reply, refusal)
    // Missing fields are reported first, whatever the configuration.
    ensures ReadFields(json).Success? && !HasRequired(ReadFields(json).value) ==>
      x.response == Response(400, ErrorBody(MissingFieldsMessage))
    // Then missing credentials, before the amount's type and sign are looked at.
    ensures ReadFields(json).Success? && HasRequired(ReadFields(json).value) && !Configured(env) ==>
      x.response == Response(500, ErrorBody(NotConfiguredMessage))
    ensures (ReadFields(json).Success? && HasRequired(ReadFields(json).value) && Configured(env)
             && !ValidAmount(ReadFields(json).value.amount)) ==>
      x.response == Response(400, ErrorBody(InvalidAmountMessage))
  {
    match ReadFields(json)
    case Failure(m) => Exchange(None, Response(500, ErrorBody(ThrownMessage(m))))
    case Success(f) =>
      if !HasRequired(f) then Exchange(None, Response(400, ErrorBody(MissingFieldsMessage)))
      else if !Configured(env) then Exchange(None, Response(500, ErrorBody(NotConfiguredMessage)))
      else if !ValidAmount(f.amount) then Exchange(None, Response(400, ErrorBody(InvalidAmountMessage)))
      else Exchange(Some(GatewayCall(env, f)), Translate(f, reply, refusal))
  }

  /**
   * The handler's own checks answer 400 exactly for a missing field, or for a
   * bad amount once the credentials are present; a negative amount without
   * credentials is 500.
   */
  lemma ValidationStatus(env: Env, json: Result<Value, string>, reply: Reply, refusal: string)
    requires ReadFields(json).Success?
    ensures var f := ReadFields(json).value; var x := Initiate(env, json, reply, refusal);
      x.call.None? ==>
        (x.response.status == 400 <==> !HasRequired(f) || (Configured(env) && !ValidAmount(f.amount)))
        && (x.response.status == 500 <==> HasRequired(f) && !Configured(env))
  {
  }

  /**
   * The gateway reads, from the query, the configured id, the booking id as
   * `custom_ref`, the amount's decimal text, the phone (empty when absent), the
   * email and both return URLs.
   */
  lemma GatewayReadsQuery(env: Env, f: Fields)
    requires Proceeds(env, f)
    requires forall k :: 0 <= k < |Query(env, f)| ==>
      FormEncoding.IsAscii(Query(env, f)[k].0) && FormEncoding.IsAscii(Query(env, f)[k].1)
    ensures var url := GatewayCall(env, f).url; var prefix := InitiatePrefix(env);
      && prefix <= url
      && var q := FormEncoding.ParseQuery(url[|prefix|..]);
      && FormEncoding.Lookup(q, "id") == Some(env.gatewayId.value)
      && FormEncoding.Lookup(q, "custom_ref") == Some(ToStr(f.bookingId))
      && FormEncoding.Lookup(q, "amount") == Some(NatToDecimal(f.amount.n))
      && FormEncoding.Lookup(q, "phone") == Some(if Truthy(f.phone) then ToStr(f.phone) else "")
      && FormEncoding.Lookup(q, "email") == Some(ToStr(f.email))
      && FormEncoding.Lookup(q, "backend_url") == Some(AppBase(env) + "/api/payment/callback")
      && FormEncoding.Lookup(q, "frontend_url") == Some(AppBase(env) + "/payment/success")
  {
    var prefix := InitiatePrefix(env);
    var q := Query(env, f);
    assert GatewayCall(env, f).url[|prefix|..] == FormEncoding.Serialize(q);
    FormEncoding.ParseSerialize(q);
    assert q[2].1 == (if Truthy(f.phone) then ToStr(f.phone) else "") by {
      if !Truthy(f.phone) { assert Or(f.phone, Str("")) == Str(""); }
    }
    QueryLookups(q[0].1, q[1].1, q[2].1, q[3].1, q[4].1, q[5].1, q[6].1);
  }

  /** Each of the seven parameter names finds its own value. */
  lemma QueryLookups(id: string, amount: string, phone: string, email: string,
                     backend: string, frontend: string, ref: string)
    ensures var q := [("id", id), ("amount", amount), ("phone", phone), ("email", email),
                      ("backend_url", backend), ("frontend_url", frontend), ("custom_ref", ref)];
      && FormEncoding.Lookup(q, "id") == Some(id)
      && FormEncoding.Lookup(q, "amount") == Some(amount)
      && FormEncoding.Lookup(q, "phone") == Some(phone)
      && FormEncoding.Lookup(q, "email") == Some(email)
      && FormEncoding.Lookup(q, "backend_url") == Some(backend)
      && FormEncoding.Lookup(q, "frontend_url") == Some(frontend)
      && FormEncoding.Lookup(q, "custom_ref") == Some(ref)
  {
    var q := [("id", id), ("amount", amount), ("phone", phone), ("email", email),
              ("backend_url", backend), ("frontend_url", frontend), ("custom_ref", ref)];
    FormEncoding.LookupByInitial(q, "id", 0);
    FormEncoding.LookupByInitial(q, "amount", 1);
    FormEncoding.LookupByInitial(q, "phone", 2);
    FormEncoding.LookupByInitial(q, "email", 3);
    FormEncoding.LookupByInitial(q, "backend_url", 4);
    FormEncoding.LookupByInitial(q, "frontend_url", 5);
    FormEncoding.LookupByInitial(q, "custom_ref", 6);
  }

  /** The amount the gateway reads is the amount requested. */
  lemma GatewayReadsAmount(env: Env, f: Fields)
    requires Proceeds(env, f)
    ensures var text := Query(env, f)[1].1;
      (forall k :: 0 <= k < |text| ==> IsDigit(text[k])) && ParseDecimal(text) == f.amount.n
  {
    NatToDecimalRoundTrip(f.amount.n);
  }

  /** The request fields of an object body, read by name. */
  function FieldsOf(r: Record): Fields
  {
    Fields(Field(r, "bookingId"), Field(r, "amount"), Field(r, "email"), Field(r, "phone"))
  }

  /** An empty object body is a 400 with an error (whatever the configuration). */
  lemma EmptyBodyIsBadRequest(env: Env, reply: Reply, refusal: string)
    ensures var x := Initiate(env, Success(Obj(map[])), reply, refusal);
      x.response.status == 400 && x.response.body.ErrorBody? && x.call.None?
  {
  }

  /** A zero or negative amount never reaches the gateway. */
  lemma NonPositiveAmountRejected(env: Env, r: Record, reply: Reply, refusal: string)
    requires Field(r, "amount").Num? && Field(r, "amount").n <= 0
    ensures var x := Initiate(env, Success(Obj(r)), reply, refusal);
      x.call.None? && x.response.body.ErrorBody?
      && (Configured(env) || Field(r, "amount").n == 0 || !HasRequired(FieldsOf(r)) ==> x.response.status == 400)
  {
  }
}
