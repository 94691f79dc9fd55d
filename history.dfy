/** Sequences of user and network events applied to the component, one
    submission at a time, and what holds of every state they reach. */
module History {
  import opened JsValue
  import opened Lifecycle

  /** What can happen to the component: the user edits one of the three
      inputs, presses submit, or the request in flight settles. */
  datatype Event =
    | EditTopic(topic: string)
    | EditLanguage(language: string)
    | EditDifficulty(difficulty: Level)
    | Submit
    | Settle(outcome: Outcome)

  predicate IsEdit(e: Event) {
    e.EditTopic? || e.EditLanguage? || e.EditDifficulty?
  }

  /** One event. A press while the button is disabled does nothing; a request
      settles only while one is in flight, so a settlement with none in
      flight does nothing either. */
  function Apply(s: State, e: Event): (r: State)
    ensures IsEdit(e) ==> r.problems == s.problems && r.loading == s.loading && r.error == s.error
    ensures !IsEdit(e) ==> SameInputs(r, s)
    ensures e.Submit? && !SubmitEnabled(s) ==> r == s
    ensures e.Settle? && !s.loading ==> r == s
    ensures r.loading ==> s.loading || e.Submit?
    ensures e.Settle? && s.loading ==> !r.loading
    ensures e.EditTopic? ==> r == s.(topic := e.topic)
    ensures e.EditLanguage? ==> r == s.(language := e.language)
    ensures e.EditDifficulty? ==> r == s.(difficulty := e.difficulty)
    ensures e.Submit? && SubmitEnabled(s) ==> r == BeginState(s)
    ensures e.Settle? && s.loading ==> r == CompleteState(s, e.outcome)
  {
    match e
    case EditTopic(t) => s.(topic := t)
    case EditLanguage(l) => s.(language := l)
    case EditDifficulty(d) => s.(difficulty := d)
    case Submit => if SubmitEnabled(s) then BeginState(s) else s
    case Settle(o) => if s.loading then CompleteState(s, o) else s
  }

  /** The events in order. */
  function Run(s: State, events: seq<Event>): State
    decreases |events|
  {
    if events == [] then s else Run(Apply(s, events[0]), events[1..])
  }

  /** What every reachable state satisfies: no message is on display while a
      request is in flight, and a message on display is one of the two the
      handler knows. */
  ghost predicate Consistent(s: State) {
    (s.loading ==> s.error == None) &&
    (s.error.Some? ==> s.error.value == TransportFailureMessage || s.error.value == InvalidFormatMessage)
  }

  predicate Delivers(e: Event, v: Value) {
    e.Settle? && Payload(e.outcome) == Some(v)
  }

  /** Running two stretches of events is running the first, then the second. */
  lemma {:induction false} RunAppend(s: State, a: seq<Event>, b: seq<Event>)
    ensures Run(s, a + b) == Run(Run(s, a), b)
    decreases |a|
  {
    if a == [] {
      assert a + b == b;
    } else {
      assert (a + b)[0] == a[0];
      assert (a + b)[1..] == a[1..] + b;
      RunAppend(Apply(s, a[0]), a[1..], b);
    }
  }

  /** Every event keeps the state consistent. */
  lemma ApplyPreservesConsistency(s: State, e: Event)
    requires Consistent(s)
    ensures Consistent(Apply(s, e))
  {
  }

  lemma {:induction false} RunPreservesConsistency(s: State, events: seq<Event>)
    requires Consistent(s)
    ensures Consistent(Run(s, events))
    decreases |events|
  {
    if events != [] {
      ApplyPreservesConsistency(s, events[0]);
      RunPreservesConsistency(Apply(s, events[0]), events[1..]);
    }
  }

  /** Whatever the user and the server do, the component never shows a
      message while loading and never shows a message other than the two the
      handler writes. */
  lemma ReachableIsConsistent(events: seq<Event>)
    ensures Consistent(Run(Initial(), events))
  {
    RunPreservesConsistency(Initial(), events);
  }

  /** What `problems` holds was there at the start or was delivered by one
      of the settlements. */
  lemma {:induction false} ProblemsComeFromDeliveries(s: State, events: seq<Event>)
    ensures var r := Run(s, events);
      r.problems == s.problems || exists i :: 0 <= i < |events| && Delivers(events[i], r.problems)
    decreases |events|
  {
    if events != [] {
      var next := Apply(s, events[0]);
      var r := Run(s, events);
      ProblemsComeFromDeliveries(next, events[1..]);
      if r.problems == next.problems {
        if next.problems != s.problems {
          assert Delivers(events[0], r.problems);
        }
      } else {
        var i :| 0 <= i < |events[1..]| && Delivers(events[1..][i], r.problems);
        assert Delivers(events[i + 1], r.problems);
      }
    }
  }

  /** From mount on, `problems` is JavaScript `null` or a delivered payload. */
  lemma ReachableProblemsWereDelivered(events: seq<Event>)
    ensures var r := Run(Initial(), events);
      r.problems == Null || exists i :: 0 <= i < |events| && Delivers(events[i], r.problems)
  {
    ProblemsComeFromDeliveries(Initial(), events);
  }

  /** Editing the inputs changes the inputs and nothing else. */
  lemma {:induction false} EditsTouchOnlyInputs(s: State, edits: seq<Event>)
    requires forall i :: 0 <= i < |edits| ==> IsEdit(edits[i])
    ensures var r := Run(s, edits);
      r.problems == s.problems && r.loading == s.loading && r.error == s.error
    decreases |edits|
  {
    if edits != [] {
      assert IsEdit(edits[0]);
      EditsTouchOnlyInputs(Apply(s, edits[0]), edits[1..]);
    }
  }

  /** A press on the enabled button, any edits while the request is in
      flight, and the settlement: the final state equals a submission started
      from the edited inputs with the same outcome. The outcome itself stays
      whatever the request for the inputs at the press produced. */
  lemma SubmitThenSettle(s: State, edits: seq<Event>, o: Outcome)
    requires SubmitEnabled(s)
    requires forall i :: 0 <= i < |edits| ==> IsEdit(edits[i])
    ensures var r := Run(s, [Submit] + edits + [Settle(o)]);
      var typed := Run(s, edits);
      SameInputs(r, typed) && r == Submission(typed, o)
  {
    var begun := Apply(s, Submit);
    RunAppend(s, [Submit] + edits, [Settle(o)]);
    RunAppend(s, [Submit], edits);
    EditsTouchOnlyInputs(begun, edits);
    EditsTouchOnlyInputs(s, edits);
    EditsCommute(s, edits);
  }

  /** Edits do not depend on the lifecycle fields: starting a request and
      then editing ends with the same inputs as editing alone. */
  lemma {:induction false} EditsCommute(s: State, edits: seq<Event>)
    requires forall i :: 0 <= i < |edits| ==> IsEdit(edits[i])
    ensures SameInputs(Run(BeginState(s), edits), Run(s, edits))
    decreases |edits|
  {
    if edits != [] {
      assert IsEdit(edits[0]);
      assert Apply(BeginState(s), edits[0]) == BeginState(Apply(s, edits[0]));
      EditsCommute(Apply(s, edits[0]), edits[1..]);
    }
  }

  /** While a request is in flight, pressing submit again changes nothing. */
  lemma SubmitIgnoredWhileLoading(s: State, events: seq<Event>)
    requires s.loading
    ensures Run(s, [Submit] + events) == Run(s, events)
  {
    assert ([Submit] + events)[1..] == events;
  }
}
