# Request lifecycle of the practice-problem generator's App component

The front end has one component, `App` (`src/App.js`). It keeps six pieces of
state: three form inputs (`topic`, `language`, `difficulty`) and three pieces
that a submission drives (`loading`, `error`, `problems`). Its submit handler
runs a small state machine:

1. it sets `loading` and clears `error`;
2. it POSTs the inputs to the generator and awaits the reply;
3. it reads `problems` from the reply, decodes it as JSON text when it is a
   string, and stores the result;
4. it maps each failure to one of two fixed messages;
5. it always clears `loading` at the end.

The submit button is disabled while `loading` holds, and that is the only
guard against a second submission.

This project models that state machine in four modules:

- `JsValue` (`js_value.dfy`) holds the JavaScript values the component
  handles, with `undefined` and `null` kept distinct, and `Option` for
  "null or a message".
- `Lifecycle` (`lifecycle.dfy`) holds the state as a value, plus the
  handler's two halves as total functions:
  - `BeginState` is the synchronous start of the handler;
  - `CompleteState` is everything after the await.
  It also has the abstract `Outcome` of a request and `Receive`, which
  derives that outcome from the settled reply and a JSON decoder. The
  reference definitions `Payload` and `Complaint` say what an outcome stores
  or reports.
- `History` (`history.dfy`) applies sequences of events (edits, presses,
  settlements) to the state. It proves what holds of every reachable state.
- `AppComponent` (`app.dfy`) is the component as a class whose fields are
  the six state hooks. Its methods update those fields step by step, as the
  handler does:
  - `Begin` is proved equal to `Lifecycle.BeginState`;
  - `Complete` is proved equal to `Lifecycle.CompleteState`;
  - `HandleSubmit` is proved equal to `Lifecycle.Submission`;
  - the constructor is proved equal to `Lifecycle.Initial`;
  - `CanSubmit` is proved equal to `Lifecycle.SubmitEnabled`;
  - `SetTopic`, `SetLanguage` and `SetDifficulty` are proved to replace one
    input of the snapshot and nothing else, which is what the edit cases of
    `History.Apply` do.

The handler in src/App.js:26-50 behaves as follows, and the model keeps it so:

- it does not check `loading`: only the disabled button (src/App.js:97)
  keeps a second press out;
- it does not check for an empty topic or language;
- it keeps the previous `problems` when a request starts;
- it reports every transport failure with one fixed message.

## Model

| member | source | states |
|---|---|---|
| AppComponent.App.constructor | src/App.js:19-24 | the component mounts with empty topic and language, difficulty "beginner", `problems` null, not loading, no message |
| AppComponent.App.SetTopic | src/App.js:64 | editing the topic changes the topic and no other state |
| AppComponent.App.SetLanguage | src/App.js:73 | editing the language changes the language and no other state |
| AppComponent.App.SetDifficulty | src/App.js:82 | choosing a difficulty changes the difficulty and no other state |
| AppComponent.App.CanSubmit | src/App.js:97 | the submit button accepts a press exactly when no request is in flight |
| AppComponent.App.Begin | src/App.js:28-29 | starting a submission sets `loading`, clears `error`, and leaves `problems` and the inputs as they were |
| AppComponent.App.Complete | src/App.js:31-49 | the settled request stores a payload or a message, never both changes at once, and `loading` is false afterwards whatever the outcome |
| AppComponent.App.HandleSubmit | src/App.js:26-50 | a whole submission ends with exactly the outcome's message (or none), the payload or the previous problems, and `loading` false |
| Lifecycle.ProblemsField | src/App.js:37 | reading `problems` off a null or undefined body throws; an absent property or a non-object body gives undefined |
| Lifecycle.Receive | src/App.js:31-45 | a rejected request or a throwing read is a transport failure; string data is handed to the JSON decoder; any other data is delivered unchanged |
| Lifecycle.Complaint | src/App.js:38-45 | an outcome either stores a payload or reports a message, never both; transport failures report "Failed to generate problems. Please try again.", undecodable strings report "Invalid response format from server" |
| Lifecycle.BeginState | src/App.js:28-29 | `loading` true, `error` null, `problems` and inputs unchanged |
| Lifecycle.CompleteState | src/App.js:31-49 | `loading` false, inputs unchanged, `problems` becomes the outcome's payload if any, `error` becomes the outcome's message if any, and `problems` is untouched whenever the message changes |
| Lifecycle.Submission | src/App.js:26-50 | after a whole submission the message is exactly the outcome's complaint and `problems` is its payload or the previous value |
| Lifecycle.MissingFieldStoresUndefined | src/App.js:37-39 | a body without a `problems` property stores undefined and shows no message |
| Lifecycle.MissingBodyIsTransportFailure | src/App.js:37-45 | a null or undefined body shows the transport-failure message and keeps the previous problems |
| Lifecycle.StringDataIsDecoded | src/App.js:38-43 | string data that decodes replaces `problems` with no message; string data that does not decode shows the format message and keeps `problems` |
| Lifecycle.RetryForgetsFailure | src/App.js:28-49 | after a failed submission, resubmitting ends in the same state as submitting once from before the failure |
| History.Apply | src/App.js:64-97 | an edit replaces exactly its input with the new value and changes nothing else; an enabled press is `BeginState`, a settlement in flight is `CompleteState`; a press while loading (button disabled) and a settlement with no request in flight change nothing; anything but an edit leaves the inputs alone; a settlement ends loading, and only a press starts it |
| History.RunAppend | src/App.js:26-50 | running two stretches of events equals running them one after the other |
| History.ApplyPreservesConsistency | src/App.js:26-50 | no event makes a consistent state inconsistent |
| History.RunPreservesConsistency | src/App.js:26-50 | any sequence of events keeps the state consistent: no message while loading, and only the two known messages |
| History.ReachableIsConsistent | src/App.js:19-50 | every state reachable from mount is consistent |
| History.ProblemsComeFromDeliveries | src/App.js:37-39 | `problems` after any events is its starting value or the payload of one of the settlements |
| History.ReachableProblemsWereDelivered | src/App.js:22 | from mount, `problems` is null or a payload some settlement delivered |
| History.EditsTouchOnlyInputs | src/App.js:64-82 | input edits leave `problems`, `loading` and `error` unchanged |
| History.EditsCommute | src/App.js:28-29 | starting a request and then editing gives the same inputs as editing alone |
| History.SubmitThenSettle | src/App.js:26-50 | after an enabled press, edits while in flight and the settlement, the final state equals a submission started from the edited inputs with the same outcome |
| History.SubmitIgnoredWhileLoading | src/App.js:97 | while a request is in flight, a press on the disabled button changes nothing |

## Left out

- Rendering and layout (src/App.js:52-145): not modelled.
- Rendering a stored payload: `problems.map` (src/App.js:111) throws when `problems` is truthy but not an array (an object, a non-empty string, `true`, a non-zero number), and reading `problem.statement` (src/App.js:118) throws for an array with a `null` or `undefined` element (such as `Arr([Null])`). The model stores such payloads without a message and does not capture that the render then crashes.
- History.SubmitThenSettle: the outcome is not tied to the request body, which carries the inputs at the press (src/App.js:32-36); after an edit while the request is in flight, the displayed problems belong to the inputs at the press, not to the edited ones.
- The HTTP client, the URL and the request body (src/App.js:32-36): only the settled `Reply` is modelled, as an input.
- The JSON decoder (src/App.js:39): it is a parameter `jsonParse`, a partial function given as `string -> Option<Value>`; RFC 8259 parsing itself is not modelled.
- `console.error` logging (src/App.js:41, 46): an I/O side effect.
- `e.preventDefault()` (src/App.js:27): a browser event detail with no effect on the state.
- Two submissions in flight at once: the handler runs to completion one request at a time here. `History.Apply` ignores a settlement when no request is in flight, because a reply needs a request.
- Form validation by the `required` attribute (src/App.js:66, 75): it is browser behaviour, not code, so the handler is not modelled as rejecting empty inputs.
- JavaScript numbers are carried as `real` and never computed with; object property order is not kept (objects are maps).
