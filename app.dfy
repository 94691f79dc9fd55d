/** The App component itself: its state hooks as fields, the input handlers
    and the submit handler as methods that update those fields step by step.
    `Begin`, `Complete` and `HandleSubmit` are proved equal to
    `Lifecycle.BeginState`, `Lifecycle.CompleteState` and
    `Lifecycle.Submission`; the constructor to `Lifecycle.Initial`; the
    three setters replace one input of the snapshot and nothing else, as
    the edit cases of `History.Apply` do. */
module AppComponent {
  import opened JsValue
  import opened Lifecycle

  class App {
    var topic: string
    var language: string
    var difficulty: Level
    var problems: Value
    var loading: bool
    var error: Option<string>

    /** The fields as one value, for comparison with the lifecycle functions. */
    function Snapshot(): State
      reads this
    {
      State(topic, language, difficulty, problems, loading, error)
    }

    /** Mount: empty inputs, "beginner", no problems, idle, no message. */
    constructor ()
      ensures Snapshot() == Initial()
      ensures topic == "" && language == "" && difficulty.Name() == "beginner"
      ensures problems == Null && !loading && error == None
    {
      topic := "";
      language := "";
      difficulty := Beginner;
      problems := Null;
      loading := false;
      error := None;
    }

    method SetTopic(t: string)
      modifies this`topic
      ensures Snapshot() == old(Snapshot()).(topic := t)
    {
      topic := t;
    }

    method SetLanguage(l: string)
      modifies this`language
      ensures Snapshot() == old(Snapshot()).(language := l)
    {
      language := l;
    }

    method SetDifficulty(d: Level)
      modifies this`difficulty
      ensures Snapshot() == old(Snapshot()).(difficulty := d)
    {
      difficulty := d;
    }

    /** Whether the submit button accepts a press. */
    method CanSubmit() returns (enabled: bool)
      ensures enabled <==> SubmitEnabled(Snapshot())
      ensures enabled <==> !loading
    {
      enabled := !loading;
    }

    /** The synchronous start of the handler. Nothing here checks `loading`
        or the inputs. */
    method Begin()
      modifies this`loading, this`error
      ensures Snapshot() == BeginState(old(Snapshot()))
      ensures loading && error == None && problems == old(problems)
    {
      loading := true;
      error := None;
    }

    /** The handler after the request settles: the try block, its two catch
        blocks and the finally block. */
    method Complete(o: Outcome)
      modifies this`problems, this`error, this`loading
      ensures Snapshot() == CompleteState(old(Snapshot()), o)
      ensures !loading
      ensures error != old(error) ==> problems == old(problems)
    {
      match o {
        case TransportFailure =>
          error := Some(TransportFailureMessage);
        case DeliveredNonString(data) =>
          problems := data;
        case DeliveredString(_, parsed) =>
          match parsed {
            case Some(v) => problems := v;
            case None => error := Some(InvalidFormatMessage);
          }
      }
      loading := false;
    }

    /** The whole handler for a request that settles with `o`, with no other
        event in between. */
    method HandleSubmit(o: Outcome)
      modifies this
      ensures Snapshot() == Submission(old(Snapshot()), o)
      ensures error == Complaint(o) && !loading
    {
      Begin();
      Complete(o);
    }
  }
}
