# InteractiveFeedback: a Dafny model of the tutoring study's session logic

InteractiveFeedback is a Streamlit research app. A participant gives consent,
fills in a demographics form, and then works through three discrete-math
problems. Each problem follows the same steps:

1. a one-shot first attempt;
2. initial feedback from a language model;
3. a tutoring chat;
4. a five-criterion evaluation of the tutor;
5. a similar follow-up problem.

At the end the whole session is flattened into one record and appended to a
spreadsheet.

This project models that logic as pure functions over an immutable session
state, and proves what each interaction does to it.

- **Text** models Python's `str.strip()` and the case-insensitive test for
  the session commands "start" and "continue". It also models the decimal
  rendering of task numbers.
- **Dict** models insertion-ordered Python dicts as lists of pairs.
- **Agent** covers the pure parts of `interactiveAgent.py`:
  - chat messages and the prompt templates filled by `str.format`;
  - the transcript `start_session` builds around the initial feedback;
  - the evaluator request of `evaluate_followup`;
  - the text that `save_session_log` writes.
- **Records** covers:
  - the rubric and the task log;
  - the ten-column row that `save_session_to_google_sheet` builds from a
    record, including the `KeyError` it raises on a missing key.
- **Flatten** models `flatten_session_log` and the row that saving a session
  writes.
- **FeedbackApp** models the tutoring page, with these parts:
  - `Run` is one execution of the script for a button click.
  - `SendAndClear` is the reply callback.
  - `Step` is one user interaction, built as follows:
    - the widget must be on the page;
    - any callback runs;
    - the script runs;
    - the `st.rerun()` chain follows.
  - Session state survives an exception, so an interaction returns the new
    state together with the error, if any.
  - A `Revision` setting chooses between the page **as written** and the
    page with the four defects under "## Findings" repaired.
- **Invariants** gives the invariant of the reachable states (`Valid`) and
  proves that every interaction preserves it.
- **Progress** states what each interaction achieves, and the four
  findings. It also proves that every reachable state is `Settled`, the
  resting condition that the "changes nothing" lemmas assume.
- **Demographics** models the demographics page: the consent gate, the
  required-field test for the submit button, and the stored record.

## Model

| member | source | states |
|---|---|---|
| Text.StripEmptyIffBlank | pages/1_FeedbackApp.py:185 | an input counts as empty after `strip()` exactly when every character is Python whitespace |
| Text.StripIdempotent | feedback_app/interactiveAgent.py:79-81 | stripping an already stripped input changes nothing |
| Text.SessionCommandSpelling | pages/1_FeedbackApp.py:250 | a reply is a session command exactly when it has five characters that fold letter by letter to "start", or eight that fold to "continue" |
| Text.SessionCommandIgnoresCase | pages/1_FeedbackApp.py:250 | "start" and "continue" are recognised in any letter case, and only those two words |
| Text.DecimalInjective | pages/1_FeedbackApp.py:376 | different task numbers give different `task_<n>_` prefixes |
| Agent.Format | feedback_app/interactiveAgent.py:15-19 | `str.format` succeeds exactly when every field of the template has an argument; otherwise it fails with a key that is not among the arguments |
| Agent.FillUsesOnlyFields | feedback_app/interactiveAgent.py:15-19 | a prompt depends only on the arguments its template names |
| Agent.InitialFeedbackRequest | feedback_app/interactiveAgent.py:14-26 | the initial-feedback request is the fixed system message followed by a user message whose text is the template filled with the raw problem, attempt and solution; it fails exactly when the template names a field other than problem, student_sol or correct_solution |
| Agent.InitialFeedbackTemplateNeverFails | feedback_app/interactiveAgent.py:14-26 | a template that uses only problem, student_sol and correct_solution succeeds for every input, and the user message is that template filled with the inputs as given |
| Agent.FollowupRequest | feedback_app/interactiveAgent.py:77-90 | the evaluator request is the fixed evaluator system message followed by a user message whose text is the template filled with the stripped statement, solution and student response; it fails exactly when a field is unbound |
| Agent.FollowupIgnoresSurroundingSpace | feedback_app/interactiveAgent.py:77-82 | whitespace around the problem, the answer or the solution never changes the evaluator request |
| Agent.FollowupTemplateNeverFails | feedback_app/interactiveAgent.py:78-82 | a template that uses only statement, solution and student_response succeeds for every input |
| Agent.ContextEmbedsInputs | feedback_app/interactiveAgent.py:34-51 | the tutoring context contains the problem, the attempt and the official solution verbatim, in that order, each right after its own opening tag |
| Agent.StartSession | feedback_app/interactiveAgent.py:30-65 | the session opens with exactly three messages: system (prompt, newline, context), user (problem and attempt) and assistant (the initial feedback) |
| Agent.Label | feedback_app/interactiveAgent.py:109 | the file labels assistant turns "GPT" and every other role "Student" |
| Agent.DialogueAppend | feedback_app/interactiveAgent.py:107-110 | the dialogue of a concatenated transcript is the concatenation of the two dialogues |
| Agent.AnnotationLines | feedback_app/interactiveAgent.py:112-117 | the annotation section appears exactly when a tag or notes is truthy; it holds a Tag line exactly for a non-empty tag and a Notes line exactly for non-empty notes |
| Agent.LogWithoutAnnotation | feedback_app/interactiveAgent.py:96-117 | without a tag or notes, the log file is the header followed by the dialogue and nothing else |
| Records.RubricScores | pages/1_FeedbackApp.py:300-306 | the stored scores are the five criteria in form order, each between 1 and 5 |
| Records.RubricScoresRoundTrip | pages/1_FeedbackApp.py:300-308 | the stored scores determine the rubric they came from |
| Records.Cells | feedback_app/interactiveAgent.py:146-155 | the cells succeed exactly when every key is present; otherwise the first missing key is the error |
| Records.SheetRow | feedback_app/interactiveAgent.py:146-157 | the row has ten cells exactly when the record has all nine required keys; the messages column and the last (rubrics) column are JSON |
| Records.TaskLogRow | feedback_app/interactiveAgent.py:146-157 | a task log always yields a row, with timestamp, problem, attempt, solution, the messages as JSON, similar problem, similar solution, follow-up answer, follow-up feedback and the rubric as JSON |
| Records.RubricsDefaultToEmpty | feedback_app/interactiveAgent.py:156 | a record without rubrics gets the JSON of the empty dict in the last column |
| Flatten.TaskKeyInjective | pages/1_FeedbackApp.py:376-382 | two flat keys are equal only for the same task and the same field |
| Flatten.FlattenIsLayout | pages/1_FeedbackApp.py:371-385 | the flattening loop produces exactly the reference layout: the student id, then six entries per task in task order with `task_<n>_` keys, then the comments; every assignment adds a new key |
| Flatten.FlattenSize | pages/1_FeedbackApp.py:371-385 | the flat record has 2 + 6·n distinct keys for n tasks |
| Flatten.FlattenLookup | pages/1_FeedbackApp.py:371-385 | the flat record holds the student id, every task's six fields under their prefixed keys (rubrics as JSON), and the comments, "" when absent |
| Flatten.FlattenKeys | pages/1_FeedbackApp.py:371-385 | a key is in the flat record exactly when it is student_id, additional_comments or one of the six keys of a recorded task |
| Flatten.UnratedTaskRubrics | pages/1_FeedbackApp.py:379 | a task without an evaluation is flattened with the JSON of the empty dict |
| Flatten.FlattenedSaveFails | pages/1_FeedbackApp.py:387-390 | handing the flat record to the sheet writer always fails with `KeyError('timestamp')` |
| Flatten.SessionRowColumns | pages/1_FeedbackApp.py:387-390 | the repaired save writes the id first, the comments last, and field m of task i in column 1 + 6·i + m |
| FeedbackApp.SetLog | pages/1_FeedbackApp.py:340-342 | updating the task log also updates the session's last entry while the task counts as completed, because the two are the same dict; earlier entries stay unchanged; before completion the session's tasks are untouched, and nothing else in the state changes |
| FeedbackApp.WithMessages | pages/1_FeedbackApp.py:233-238 | replacing the conversation also replaces the task log's messages, because they are the same list; every other field of the task log stays, and before the task is completed the session log is untouched |
| Invariants.InitValid | pages/1_FeedbackApp.py:30-38 | the first state of a session is valid |
| Invariants.LoadValid | pages/1_FeedbackApp.py:84-101 | loading a task keeps the state valid and leaves the session log and the index alone |
| Invariants.SavePhaseKeeps | pages/1_FeedbackApp.py:387-390 | saving changes only the sheet and the session log's closing comments, which become the stored comments or "" when none are stored; the student id and the logged tasks stay |
| Invariants.SendAndClearValid | pages/1_FeedbackApp.py:230-271 | the reply callback keeps the state valid and the index fixed |
| Invariants.RunValid | pages/1_FeedbackApp.py:84-390 | a script run keeps the state valid; the index moves by one only on "Next Task" before the last task |
| Invariants.StepValid | pages/1_FeedbackApp.py:84-390 | every interaction keeps the state valid; the index moves by one only on "Next Task" before the last task |
| Invariants.TraceValid | pages/1_FeedbackApp.py:84-390 | every state reached by any sequence of interactions is valid |
| Progress.NoConsentNoChange | pages/1_FeedbackApp.py:49-51 | without consent, no interaction changes anything |
| Progress.VisitLoadsTask | pages/1_FeedbackApp.py:84-101 | with no task loaded, or mode "done", a visit loads the current row: statement and the three optional columns ("" when missing), no messages, empty task log, mode awaiting_first_attempt, all flags down; nothing else changes |
| Progress.LoadedTaskStays | pages/1_FeedbackApp.py:90 | a loaded task is not reloaded |
| Progress.InertClick | pages/1_FeedbackApp.py:185 | a blank first attempt, a blank follow-up answer or the send button itself has no effect on the script run |
| Progress.SettledIsIdle | pages/1_FeedbackApp.py:84-390 | a rerun of a settled page changes nothing and does not rerun again |
| Progress.StepSettled | pages/1_FeedbackApp.py:84-390 | every interaction from a valid settled state ends settled: with the feedback shown the log is appended, and on the last task the comments box has been copied, including after "Submit All & Save" with newly typed comments |
| Progress.TraceSettled | pages/1_FeedbackApp.py:84-390 | every state reached from a valid settled state by any sequence of interactions is valid and settled |
| Progress.ReachableSettled | pages/1_FeedbackApp.py:30-38 | every state a session reaches from its first visit is valid and settled, so the lemmas that assume a settled state cover all reachable states |
| Progress.BlankAttemptChangesNothing | pages/1_FeedbackApp.py:185 | submitting a blank first attempt changes nothing |
| Progress.AttemptStartsSession | pages/1_FeedbackApp.py:179-214 | a first attempt stores the stripped attempt and builds the task log with empty follow-up fields, no rubric and the time; the conversation becomes `start_session`'s three messages and the mode becomes initial_feedback; a template `KeyError` keeps the mode |
| Progress.BlankReplyChangesNothing | pages/1_FeedbackApp.py:230-231 | sending a blank reply changes nothing |
| Progress.ReplyAppendsTurn | pages/1_FeedbackApp.py:230-271 | a reply that is not a session command appends exactly the stripped reply and the tutor's answer; the mode, the task and the attempt stay; the task log holds the same messages and keeps every other field |
| Progress.SendAndClearKeepsProgress | pages/1_FeedbackApp.py:230-271 | the reply callback changes only the conversation, the task log's messages and the mode; the index, the flags, the comments and the sheet stay; in the session log only the tasks may change, their number stays, every entry before the last stays, and with no completed task the session log is untouched (only a completed task's own entry is the same dict as the task log) |
| Progress.AsWrittenFailedReplyKeepsTurn | pages/1_FeedbackApp.py:230-242 | as written, when the model call of a non-blank reply raises, the student's turn stays in the conversation and in the task log with no answer, the mode and index stay, and the failed interaction has changed the state |
| Progress.AsWrittenRetryRepeatsTurn | pages/1_FeedbackApp.py:230-268 | as written, the next successful reply after a failed one leaves two student turns in a row before the tutor's answer |
| Progress.CorrectedFailedReplyCommitsNothing | pages/1_FeedbackApp.py:230-242 | repaired, a reply whose model call raises leaves the state exactly as it was; the error is reported exactly when the reply box is offered and not blank |
| Progress.CorrectedRetryAppendsOneTurn | pages/1_FeedbackApp.py:230-268 | repaired, the next reply after a failed one appends exactly one student turn and its answer |
| Progress.StartCommandCrashes | pages/1_FeedbackApp.py:249-256 | as written, "start" or "continue" during the initial feedback raises the `TypeError` of a missing argument, after the turn was appended, and the mode stays initial_feedback |
| Progress.StartCommandEntersMain | pages/1_FeedbackApp.py:249-258 | repaired, the command restarts the conversation with `start_session` and enters the main mode |
| Progress.RubricRecorded | pages/1_FeedbackApp.py:299-313 | submitting the evaluation stores the five scores in the task log, hides the form and enters the follow-up mode; every other task-log field except the messages (which the reply callback may extend) stays |
| Progress.BlankFollowupChangesNothing | pages/1_FeedbackApp.py:323 | a blank follow-up answer changes nothing |
| Progress.FollowupStep | pages/1_FeedbackApp.py:316-342 | a follow-up answer that does not reload a task records the answer, appends the task log only if the task was not yet completed, and on the last task copies the comments box |
| Progress.FollowupRecorded | pages/1_FeedbackApp.py:316-342 | a follow-up answer is stored as typed, with the evaluation and the time, and the feedback is shown; the task log is appended to the session only the first time, as its last entry; every entry already in the session stays, except that a completed task's own entry is the one updated |
| Progress.AsWrittenFollowupReloads | pages/1_FeedbackApp.py:344-365 | as written, a follow-up answer before the last task appends the log, then clears and reloads the same task at the same index |
| Progress.AsWrittenNextTaskNeverOffered | pages/1_FeedbackApp.py:344-347 | as written, no reachable state shows the "Go to Next Task" button |
| Progress.AsWrittenIndexFixed | pages/1_FeedbackApp.py:344-365 | as written, no interaction moves the task index |
| Progress.AsWrittenStaysOnFirstTask | pages/1_FeedbackApp.py:344-365 | as written, no sequence of interactions moves the task index |
| Progress.CorrectedNextTaskAdvances | pages/1_FeedbackApp.py:344-365 | repaired, "Next Task" moves to the next problem, loads it fresh, forgets the attempt, and leaves exactly one logged task per finished problem |
| Progress.CorrectedTasksBounded | pages/1_FeedbackApp.py:340-342 | repaired, the session holds one log per finished task, at most three |
| Progress.AsWrittenSaveFails | pages/1_FeedbackApp.py:387-390 | as written, "Submit All & Save" stores the comments, then fails with `KeyError('timestamp')` and writes no row |
| Progress.CorrectedSaveWritesRow | pages/1_FeedbackApp.py:387-390 | repaired, the save stores the comments and appends one row of 2 + 6·3 cells holding the flattened session |
| Progress.RerunChainEnds | pages/1_FeedbackApp.py:214 | a run that asks for a rerun leads to a run that does not, so reruns end |
| Demographics.InitialForm | pages/2_Demographics.py:17-19 | the form starts at age 18 with both select boxes on the placeholder "Select" and both text boxes empty |
| Demographics.CanSubmitIff | pages/2_Demographics.py:25-29 | the submit button is shown exactly when gender and level are not "Select" and the background is non-empty; the age and the optional details never matter |
| Demographics.InitialFormBlocked | pages/2_Demographics.py:17-29 | the untouched form cannot be submitted |
| Demographics.ChoicesSubmittable | pages/2_Demographics.py:18-29 | every real gender and level choice, with a background, can be submitted |
| Demographics.Record | pages/2_Demographics.py:32-37 | the record has exactly the keys age, gender, academic_background and academic_level, in that order |
| Demographics.RecordRoundTrip | pages/2_Demographics.py:32-37 | the four required inputs can be read back from the record; the optional details are not stored and do not affect it |
| Demographics.Run | pages/2_Demographics.py:8-39 | without consent the page stops and changes nothing; a press on a submittable form stores the record, sets demographics_submitted and goes to tutoring; anything else changes nothing |
| Demographics.SubmittedMeansRecorded | pages/2_Demographics.py:31-39 | the submitted flag is raised only by a submittable form, together with a record of exactly its four required inputs |

## Left out

- The language model itself is not modelled. The initial feedback, the
  tutor's replies (`continue_session` and the chat call in the reply
  callback) and the follow-up evaluation arrive as strings in the events.
- A failing model call is modelled only for a reply sent with the send
  button (`SendReplyFailing`, Finding 4). The other calls are assumed to
  succeed:
  - the initial feedback inside `start_session` (pages/1_FeedbackApp.py:203).
    If it raises, the attempt, the `attempt_submitted` flag and a task log
    with no messages are already stored (:186-200), while the mode and the
    conversation stay.
  - the follow-up evaluation (pages/1_FeedbackApp.py:324). If it raises,
    nothing has been stored yet.
  - the reply callback that the "Submit Evaluation" button also triggers.
    If its call raises there, the source leaves the state as
    `SendReplyFailing` describes, and the click is lost.
- `json.dumps` is a parameter `dumps`. Indentation and escaping are not
  modelled.
- `datetime.now()` is not modelled. Timestamps arrive as strings in the
  events, and the generated student id is a parameter of `Init`.
- Spreadsheet access, credentials and file writing are not modelled.
  `save_session_to_google_sheet` is modelled by the row it builds,
  `save_session_log` by the text it writes, and the sheet by a list of rows.
- The CSV file is a list of rows. Pandas reading and NaN cells are not
  modelled: a missing optional column reads as "". An index past the end is
  the error `MissingRow`.
- The prompts and the instruction texts are parameters. A prompt template is
  a list of literal pieces and named fields; parsing of format strings is
  not modelled.
- `save_followup_log` is imported by the page but never called, so it is
  not modelled.
- Streamlit rendering is not modelled: markdown, styles, chat bubbles,
  `st.success`/`st.warning`, page switching beyond the stop, and the
  redirect target.
- Only the widget keys that the logic reads are modelled. The reply box,
  the attempt box and the comment box are event parameters; the radio
  buttons are the `Rubric` of the event. Because the reply box is an event
  parameter, its reset to "" when a task loads (pages/1_FeedbackApp.py:98)
  and at the end of `send_and_clear` (pages/1_FeedbackApp.py:270), and its
  deletion in the clearing loop (pages/1_FeedbackApp.py:355), are not
  modelled. The attempt box (`first_attempt`) is never cleared in the
  source, and the model does not carry it between events either.
- The `st.rerun()` at the end of `send_and_clear`
  (pages/1_FeedbackApp.py:271) is called inside a button callback, where
  Streamlit ignores it; the model gives it no effect, so the click that
  triggered the callback still reaches the script run.
- Text.Lower: folds ASCII letters only, because Python's full Unicode
  `lower()` is not modelled. No non-ASCII character folds to a letter of
  "start" or "continue", so the command test is unaffected.
- FeedbackApp.AppendTask, FeedbackApp.RecordRubric,
  FeedbackApp.RecordFollowup and FeedbackApp.WithMessages: with no task log,
  these only raise the flags or replace the conversation, and
  `WithMessages` keeps the task log absent. The source would store into the
  `task_log` dict, for example creating `{"messages": ...}` at
  pages/1_FeedbackApp.py:238. No such state arises where these operations
  run, because `Valid` requires a task log once the attempt is submitted.
- Progress.RubricRecorded: assumes the reply callback, which the evaluation
  button also triggers, raised no error. When it does raise, the click is
  lost, as Streamlit does with an exception in a callback.
- Progress.FollowupRecorded: covers the last task and the repaired page.
  Before the last task, the page as written reloads the task instead; that
  case is Progress.AsWrittenFollowupReloads.
- As written, "Submit All & Save" is never on the page, because no
  participant reaches the last task (Finding 1).
  Progress.AsWrittenSaveFails therefore describes a state that cannot be
  reached from the start of a session; it shows that Finding 3 stands on
  its own.

## Findings

| source | as written | input that shows it | evidently intended | confidence | as-written member | corrected member |
|---|---|---|---|---|---|---|
| pages/1_FeedbackApp.py:344-365 | the loop that deletes the per-task keys and the `st.rerun()` sit outside the `if st.button("Go to Next Task")` block; the run that first shows the follow-up feedback of task 1 clears it and reloads task 1 before the button can be clicked | a non-blank follow-up answer on task 1 | the clearing belongs inside the button's block, so that the button advances to task 2 | high, not executed | Progress.AsWrittenFollowupReloads | Progress.CorrectedNextTaskAdvances |
| pages/1_FeedbackApp.py:249-256 | `start_session` takes five arguments and is called with four (no `INITIAL_FEEDBACK_TEMPLATE`), which raises a `TypeError` | typing "start" during the initial feedback | restart the session with the template and enter the main mode | high, not executed | Progress.StartCommandCrashes | Progress.StartCommandEntersMain |
| pages/1_FeedbackApp.py:387-390 | the flattened session is handed to `save_session_to_google_sheet`, which reads `log_data["timestamp"]` and the other task-log keys; the flat record has none of them | clicking "Submit All & Save" with any session | write the flattened session as one row | medium, not executed | Flatten.FlattenedSaveFails | Flatten.SessionRowColumns |
| pages/1_FeedbackApp.py:230-242 | the student's turn is appended to the conversation and stored in the task log before the model is called; when the call raises, the turn stays with no answer, although a failed interaction should commit nothing | a non-blank reply whose chat call raises, then another reply | append the turn only after the call returns, so that a failure changes nothing and a retry adds one turn | medium, not executed | Progress.AsWrittenRetryRepeatsTurn | Progress.CorrectedRetryAppendsOneTurn |
