/**
 * POST /api/send-notification: checks a notification request, looks up the
 * recipient's device token and opt-in, and sends a push message whose data
 * values are all strings.
 */
module SendNotification {
  import opened Wrappers
  import opened Js

  const MissingFieldsMessage: string := "Missing required fields: type, recipientId, title, body"
  const NotFoundMessage: string := "Recipient user not found"
  const DisabledMessage: string := "User has notifications disabled"
  const NoTokenMessage: string := "User has no FCM token"

  /** Recipient-document fields the handler reads. */
  const TokenField: string := "13_fcmToken"
  const OptInField: string := "14_notification"

  /** `const { type, recipientId, title, body: bodyText, data } = body` */
  datatype Fields = Fields(kind: Value, recipientId: Value, title: Value, text: Value, data: Value)

  /** The outcome of reading `users/<recipientId>`. */
  datatype UserLookup = LookupFailed(message: string) | NoDocument | Document(user: Record)

  /** The outcome of the push-messaging `send`: the message id, or the error it threw. */
  datatype Delivery = SendFailed(message: string) | Sent(messageId: string)

  /** What is handed to the push-messaging service. */
  datatype Message = Message(token: Value, title: Value, body: Value, data: Record)

  datatype Body =
    | ErrorBody(error: string)
    /** `{ success: false, message: 'User has notifications disabled' }` */
    | Disabled
    /** `{ success: true, messageId, recipientId, type }` */
    | Delivered(messageId: string, recipientId: Value, kind: Value)
    /** `{ error: error.message, details: error.stack }` */
    | Crashed(error: string)

  datatype Response = Response(status: int, body: Body)

  /**
   * The id of the `users` document that was read to find the recipient (none
   * when the handler stopped before the read), the message sent (if any), and
   * the response.
   */
  datatype Exchange = Exchange(lookedUp: Option<Value>, sent: Option<Message>, response: Response)

  function ReadFields(json: Result<Value, string>): Result<Fields, string>
  {
    match json
    case Failure(m) => Failure(m)
    case Success(v) =>
      match Destructure(v, "type")
      case Failure(m) => Failure(m)
      case Success(r) =>
        Success(Fields(Field(r, "type"), Field(r, "recipientId"), Field(r, "title"), Field(r, "body"), Field(r, "data")))
  }

  predicate HasRequired(f: Fields)
  {
    Truthy(f.kind) && Truthy(f.recipientId) && Truthy(f.title) && Truthy(f.text)
  }

  /** `{ type, ...data }`: the caller's data, over a `type` entry it may replace. */
  function Merge(kind: Value, data: Value): (r: Record)
    ensures r.Keys == {"type"} + OwnEntries(data).Keys
    ensures forall k :: k in OwnEntries(data) ==> r[k] == OwnEntries(data)[k]
    ensures "type" !in OwnEntries(data) ==> r["type"] == kind
  {
    map["type" := kind] + OwnEntries(data)
  }

  /** `String(v)` for every value but null and undefined, which stay. */
  function StringValue(v: Value): (r: Value)
    ensures Nullish(v) ==> r == v
    ensures !Nullish(v) ==> r == Str(ToStr(v))
  {
    if Nullish(v) then v else Str(ToStr(v))
  }

  /** The data map once every value has been made a string. */
  function Stringified(m: Record): Record
  {
    map k | k in m :: StringValue(m[k])
  }

  /**
   * The `Object.keys(notificationData).forEach` pass: rewrites each value in
   * place, one key at a time.
   */
  method StringifyValues(m: Record) returns (r: Record)
    ensures r == Stringified(m)
  {
    r := m;
    var pending := m.Keys;
    while pending != {}
      invariant pending <= m.Keys
      invariant r.Keys == m.Keys
      invariant forall k :: k in pending ==> r[k] == m[k]
      invariant forall k :: k in m && k !in pending ==> r[k] == StringValue(m[k])
      decreases pending
    {
      var k :| k in pending;
      if !Nullish(r[k]) {
        r := r[k := Str(ToStr(r[k]))];
      }
      pending := pending - {k};
    }
  }

  /**
   * Stringifying keeps the key set, leaves null and undefined alone, turns
   * everything else into its string, and changes nothing on a second pass.
   */
  lemma StringifiedProperties(m: Record)
    ensures Stringified(m).Keys == m.Keys
    ensures forall k :: k in m ==> var v := Stringified(m)[k];
      (Nullish(m[k]) ==> v == m[k]) && (!Nullish(m[k]) ==> v.Str? && v.s == ToStr(m[k]))
    ensures Stringified(Stringified(m)) == Stringified(m)
  {
  }

  /** The route handler, with the recipient lookup and the send as inputs. */
  function Notify(json: Result<Value, string>, lookup: UserLookup, delivery: Delivery): (x: Exchange)
    ensures ReadFields(json).Failure? ==>
      x == Exchange(None, None, Response(500, Crashed(ReadFields(json).error)))
    // Missing fields: 400, before the recipient is looked up.
    ensures ReadFields(json).Success? && !HasRequired(ReadFields(json).value) ==>
      x == Exchange(None, None, Response(400, ErrorBody(MissingFieldsMessage)))
    ensures x.lookedUp.Some? <==> ReadFields(json).Success? && HasRequired(ReadFields(json).value)
    // The recipient is the `users` document named by the request's `recipientId`.
    ensures x.lookedUp.Some? ==> x.lookedUp.value == ReadFields(json).value.recipientId
    // A lookup that throws is a 500 carrying the error's message; nothing is sent.
    ensures x.lookedUp.Some? && lookup.LookupFailed? ==> x.sent.None? && x.response == Response(500, Crashed(lookup.message))
    ensures x.lookedUp.Some? && lookup.NoDocument? ==> x.sent.None? && x.response == Response(404, ErrorBody(NotFoundMessage))
    // Opt-in is checked before the token: a disabled recipient is a 200 without success.
    ensures x.lookedUp.Some? && lookup.Document? && !Truthy(Field(lookup.user, OptInField)) ==>
      x.sent.None? && x.response == Response(200, Disabled)
    ensures (x.lookedUp.Some? && lookup.Document? && Truthy(Field(lookup.user, OptInField))
             && !Truthy(Field(lookup.user, TokenField))) ==>
      x.sent.None? && x.response == Response(400, ErrorBody(NoTokenMessage))
    // A message goes out only to an opted-in recipient with a token, carrying the merged, stringified data.
    ensures x.sent.Some? <==>
      x.lookedUp.Some? && lookup.Document?
      && Truthy(Field(lookup.user, OptInField)) && Truthy(Field(lookup.user, TokenField))
    ensures x.sent.Some? ==>
      var f := ReadFields(json).value;
      x.sent.value == Message(Field(lookup.user, TokenField), f.title, f.text, Stringified(Merge(f.kind, f.data)))
    ensures x.response.body.Delivered? <==> x.sent.Some? && delivery.Sent?
    ensures x.response.body.Delivered? ==>
      x.response == Response(200, Delivered(delivery.messageId, ReadFields(json).value.recipientId,
                                            ReadFields(json).value.kind))
    // A send that throws is a 500 carrying the error's message.
    ensures x.sent.Some? && delivery.SendFailed? ==> x.response == Response(500, Crashed(delivery.message))
    ensures x.response.status == 500 <==> x.response.body.Crashed?
  {
    match ReadFields(json)
    case Failure(m) => Exchange(None, None, Response(500, Crashed(m)))
    case Success(f) =>
      if !HasRequired(f) then Exchange(None, None, Response(400, ErrorBody(MissingFieldsMessage)))
      else
        match lookup
        case LookupFailed(m) => Exchange(Some(f.recipientId), None, Response(500, Crashed(m)))
        case NoDocument => Exchange(Some(f.recipientId), None, Response(404, ErrorBody(NotFoundMessage)))
        case Document(user) =>
          var token := Field(user, TokenField);
          if !Truthy(Field(user, OptInField)) then Exchange(Some(f.recipientId), None, Response(200, Disabled))
          else if !Truthy(token) then Exchange(Some(f.recipientId), None, Response(400, ErrorBody(NoTokenMessage)))
          else
            var message := Message(token, f.title, f.text, Stringified(Merge(f.kind, f.data)));
            match delivery
            case SendFailed(m) => Exchange(Some(f.recipientId), Some(message), Response(500, Crashed(m)))
            case Sent(id) => Exchange(Some(f.recipientId), Some(message), Response(200, Delivered(id, f.recipientId, f.kind)))
  }

  /** The data sent always has a `type` entry; the caller's own `type` in `data` wins. */
  lemma SentDataHasType(f: Fields)
    ensures var d := Stringified(Merge(f.kind, f.data));
      "type" in d
      && d["type"] == StringValue(if "type" in OwnEntries(f.data) then OwnEntries(f.data)["type"] else f.kind)
  {
  }
}
