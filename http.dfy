/** What the handlers write back: a status code and a JSON body. The message
    bodies are built by `ResponseMessage` through plain string concatenation,
    with no escaping; the session body comes from `json.Marshal`, whose
    encoding is not modelled. */
module Http {
  import opened Options

  const StatusOK := 200
  const StatusCreated := 201
  const StatusBadRequest := 400
  const StatusUnauthorized := 401
  const StatusInternalServerError := 500

  const MethodGet := "GET"
  const MethodPost := "POST"

  /** The `Session` record returned on login and refresh. */
  datatype Session = Session(sessionID: string, expiration: int, origin: string)

  /** A response body: JSON text, or a `Session` handed to the JSON encoder. */
  datatype Body = Json(text: string) | SessionJson(session: Session)

  /** One `WriteHeader` + `Write` pair. */
  datatype Reply = Reply(code: int, body: Body)

  const MessagePrefix := "{\"message\": \""
  const MessageSuffix := "\"}"

  /** The text `ResponseMessage` writes for `message`. */
  function MessageBody(message: string): string
  {
    MessagePrefix + message + MessageSuffix
  }

  /** Reads back the message of a body shaped like `MessageBody`'s. */
  function ParseMessageBody(text: string): (r: Option<string>)
    ensures r.Some? ==> MessageBody(r.value) == text
  {
    var p, s := |MessagePrefix|, |MessageSuffix|;
    if p + s <= |text| && text[..p] == MessagePrefix && text[|text| - s..] == MessageSuffix then
      var message := text[p..|text| - s];
      assert text == text[..p] + message + text[|text| - s..];
      Some(message)
    else
      None
  }

  /** Every message survives the trip through `MessageBody`, whatever characters it holds. */
  lemma MessageBodyRoundTrip(message: string)
    ensures ParseMessageBody(MessageBody(message)) == Some(message)
  {
    var text := MessageBody(message);
    var p, s := |MessagePrefix|, |MessageSuffix|;
    assert text[..p] == MessagePrefix;
    assert text[|text| - s..] == MessageSuffix;
    assert text[p..|text| - s] == message;
  }

  /** `ResponseMessage(w, code, message)`: the status is `code` and the body
      carries exactly `message` under the key "message". */
  function ResponseMessage(code: int, message: string): (r: Reply)
    ensures r.code == code && r.body.Json?
    ensures ParseMessageBody(r.body.text) == Some(message)
  {
    MessageBodyRoundTrip(message);
    Reply(code, Json(MessageBody(message)))
  }

  /** No character of `s` needs escaping inside a JSON string literal. */
  predicate JsonSafe(s: string)
  {
    forall i :: 0 <= i < |s| ==> s[i] != '"' && s[i] != '\\' && ' ' <= s[i]
  }

  /** A body that is a well-formed JSON object `{"message": "<m>"}`. */
  predicate WellFormedMessage(text: string)
  {
    ParseMessageBody(text).Some? && JsonSafe(ParseMessageBody(text).value)
  }

  lemma JsonSafeConcat(a: string, b: string)
    requires JsonSafe(a) && JsonSafe(b)
    ensures JsonSafe(a + b)
  {
    forall i | 0 <= i < |a + b|
      ensures (a + b)[i] != '"' && (a + b)[i] != '\\' && ' ' <= (a + b)[i]
    {
      if i >= |a| {
        assert (a + b)[i] == b[i - |a|];
      }
    }
  }
}
