/** The state of the App component and the request lifecycle of its submit
    handler, as pure functions from the current state (and, for a
    completion, the abstract outcome of the request) to the next state. */
module Lifecycle {
  import opened JsValue

  /** The three choices the difficulty selector offers; the component starts
      on "beginner". */
  datatype Level = Beginner | Intermediate | Advanced {
    /** The string the selector stores and the request sends. */
    function Name(): string {
      match this
      case Beginner => "beginner"
      case Intermediate => "intermediate"
      case Advanced => "advanced"
    }
  }

  /** Shown when the request itself fails (or its response has no body). */
  const TransportFailureMessage: string := "Failed to generate problems. Please try again."
  /** Shown when the `problems` string is not valid JSON text. */
  const InvalidFormatMessage: string := "Invalid response format from server"

  /** The six pieces of component state. `problems` holds whatever the last
      successful completion stored (JavaScript `null` at first); `error` is
      `null` or the message on display. */
  datatype State = State(
    topic: string,
    language: string,
    difficulty: Level,
    problems: Value,
    loading: bool,
    error: Option<string>)

  /** The state the component mounts with. */
  function Initial(): State {
    State("", "", Beginner, Null, false, None)
  }

  /** The submit button is disabled while a request is in flight; this is the
      only guard against a second submission. */
  predicate SubmitEnabled(s: State) {
    !s.loading
  }

  /** The two states agree on the three form inputs. */
  predicate SameInputs(s: State, t: State) {
    s.topic == t.topic && s.language == t.language && s.difficulty == t.difficulty
  }

  /** How the request settles, as far as the handler can tell.
      `DeliveredNonString` includes `undefined`, read from a body without a
      `problems` property. In `DeliveredString`, `parsed` is the result of
      decoding `text` as JSON text: `None` when the decoder throws. */
  datatype Outcome =
    | TransportFailure
    | DeliveredNonString(data: NonString)
    | DeliveredString(text: string, parsed: Option<Value>)

  /** What the awaited POST produces: a rejected promise (network error,
      non-2xx status) or a response whose `data` is the decoded body. */
  datatype Reply = Rejected | Fulfilled(body: Value)

  /** Reading `.problems` off the response body: `None` when the read throws
      (the body is `null` or `undefined`), `undefined` when the property is
      absent or the body is not an object. */
  function ProblemsField(body: Value): (r: Option<Value>)
    ensures r.None? <==> body.Undefined? || body.Null?
    ensures body.Obj? && "problems" in body.fields ==> r == Some(body.fields["problems"])
    ensures body.Obj? && "problems" !in body.fields ==> r == Some(Undefined)
    ensures r.Some? && !body.Obj? ==> r.value == Undefined
  {
    match body
    case Undefined => None
    case Null => None
    case Obj(fields) => Some(if "problems" in fields then fields["problems"] else Undefined)
    case _ => Some(Undefined)
  }

  /** The outcome the handler acts on, given the settled request and the JSON
      decoder it applies to string data. Anything thrown outside the inner
      decoding step reaches the outer catch as a transport failure. */
  function Receive(reply: Reply, jsonParse: string -> Option<Value>): (o: Outcome)
    ensures o.TransportFailure? <==> reply.Rejected? || ProblemsField(reply.body).None?
    ensures o.DeliveredString? ==>
      reply.Fulfilled? && ProblemsField(reply.body) == Some(Str(o.text)) && o.parsed == jsonParse(o.text)
    ensures o.DeliveredNonString? ==>
      reply.Fulfilled? && ProblemsField(reply.body) == Some(o.data)
  {
    match reply
    case Rejected => TransportFailure
    case Fulfilled(body) =>
      match ProblemsField(body)
      case None => TransportFailure
      case Some(data) =>
        if data.Str? then DeliveredString(data.s, jsonParse(data.s))
        else DeliveredNonString(data)
  }

  /** The value an outcome stores into `problems`, if it stores one. */
  function Payload(o: Outcome): Option<Value> {
    match o
    case TransportFailure => None
    case DeliveredNonString(data) => Some(data)
    case DeliveredString(_, parsed) => parsed
  }

  /** The message an outcome puts on display, if it is a failure. An outcome
      stores a payload or reports a message, never both and never neither. */
  function Complaint(o: Outcome): (r: Option<string>)
    ensures r.Some? <==> Payload(o).None?
    ensures o.TransportFailure? <==> r == Some(TransportFailureMessage)
    ensures r.Some? && !o.TransportFailure? ==> r == Some(InvalidFormatMessage)
  {
    match o
    case TransportFailure => Some(TransportFailureMessage)
    case DeliveredNonString(_) => None
    case DeliveredString(_, parsed) => if parsed.None? then Some(InvalidFormatMessage) else None
  }

  /** First half of the handler: mark the request in flight and clear the
      message. The previous `problems` stay on display. */
  function BeginState(s: State): (r: State)
    ensures r.loading && r.error == None
    ensures r.problems == s.problems && SameInputs(r, s)
  {
    s.(loading := true, error := None)
  }

  /** Second half of the handler: store the payload or the message, then,
      whatever happened, clear `loading`. */
  function CompleteState(s: State, o: Outcome): (r: State)
    ensures !r.loading && SameInputs(r, s)
    ensures r.problems == Payload(o).GetOr(s.problems)
    ensures r.error == if Complaint(o).Some? then Complaint(o) else s.error
    ensures r.error != s.error ==> r.problems == s.problems
  {
    var settled :=
      match o
      case TransportFailure => s.(error := Some(TransportFailureMessage))
      case DeliveredNonString(data) => s.(problems := data)
      case DeliveredString(_, parsed) =>
        if parsed.Some? then s.(problems := parsed.value)
        else s.(error := Some(InvalidFormatMessage));
    settled.(loading := false)
  }

  /** One whole submission: after it the message is exactly the outcome's
      complaint, and `problems` is the payload or what was there before. */
  function Submission(s: State, o: Outcome): (r: State)
    ensures !r.loading && SameInputs(r, s)
    ensures r.error == Complaint(o)
    ensures r.problems == Payload(o).GetOr(s.problems)
    ensures r.error.Some? ==> r.problems == s.problems
  {
    CompleteState(BeginState(s), o)
  }

  /** A body without a `problems` property is not reported: `undefined`
      replaces the previous problems and no message is shown. */
  lemma MissingFieldStoresUndefined(s: State, fields: map<string, Value>, jsonParse: string -> Option<Value>)
    requires "problems" !in fields
    ensures Submission(s, Receive(Fulfilled(Obj(fields)), jsonParse)) ==
      s.(problems := Undefined, loading := false, error := None)
  {
  }

  /** A `null` or absent body makes the property read throw, which the outer
      catch reports as a transport failure. */
  lemma MissingBodyIsTransportFailure(s: State, body: Value, jsonParse: string -> Option<Value>)
    requires body == Null || body == Undefined
    ensures Submission(s, Receive(Fulfilled(body), jsonParse)) ==
      s.(loading := false, error := Some(TransportFailureMessage))
  {
  }

  /** String data is decoded: a successful decoding is stored, a failed one is
      reported and the previous problems stay. */
  lemma StringDataIsDecoded(s: State, fields: map<string, Value>, text: string, jsonParse: string -> Option<Value>)
    requires "problems" in fields && fields["problems"] == Str(text)
    ensures var r := Submission(s, Receive(Fulfilled(Obj(fields)), jsonParse));
      match jsonParse(text)
      case Some(v) => r.problems == v && r.error == None
      case None => r.problems == s.problems && r.error == Some(InvalidFormatMessage)
  {
  }

  /** A failed attempt leaves nothing behind once the user submits again:
      the retry ends exactly as if it had been the first attempt. */
  lemma RetryForgetsFailure(s: State, failure: Outcome, o: Outcome)
    requires Payload(failure).None?
    ensures Submission(Submission(s, failure), o) == Submission(s, o)
  {
  }
}
