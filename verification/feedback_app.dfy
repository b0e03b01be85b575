/**
  The tutoring page (pages/1_FeedbackApp.py) as a state machine.

  The page is a script that Streamlit runs from the top after every
  interaction, with the clicked button reporting `True` for that one run;
  `st.rerun()` in the script stops the run and starts another one in which
  no button is clicked. Called inside an `on_click` callback, as at the end
  of `send_and_clear` (pages/1_FeedbackApp.py:271), `st.rerun()` does
  nothing in Streamlit: the run the click triggers follows anyway, with the
  click. The model gives that call no effect, so the evaluation button's
  click survives its callback. The model follows that structure:

  - `Run` is one run of the script on a session state with at most one
    clicked button;
  - `Step` is one user interaction: the widget must be on the page, its
    `on_click` callback runs first, then the script runs with the click,
    then the reruns it requests run without one.

  The language model's answers, the clock and the typed text arrive with
  the events; a reply whose model call raises is an event of its own.
  `Revision` selects the page as written or with its four defects repaired
  (see the README's findings).
 */
module FeedbackApp {
  import opened Basics
  import opened Text
  import opened Agent
  import opened Records
  import opened Flatten

  // ---------------------------------------------------------------------
  // Configuration
  // ---------------------------------------------------------------------

  /** The dataset index of each task, easy to hard (pages/1_FeedbackApp.py:60-64). */
  const TaskIndices: seq<nat> := [5, 35, 3]

  /** One dataset row: the statement, and the columns read with a "" default. */
  datatype ProblemRow = ProblemRow(statement: string, solution: Option<string>,
                                   newProblem: Option<string>, newSolution: Option<string>)

  datatype Revision = AsWritten | Corrected

  /** What the page takes from outside: the revision, the dataset rows, the
      tutor system prompt, the two prompt templates, and `json.dumps`. */
  datatype Config = Config(revision: Revision, rows: seq<ProblemRow>, tutorPrompt: string,
                           feedbackTemplate: Template, evaluationTemplate: Template,
                           dumps: Value -> string)

  /** The position `df.iloc[selected_index - 2]` reads for task `i`. */
  function RowPosition(i: nat): nat
    requires i < |TaskIndices|
  {
    TaskIndices[i] - 2
  }

  predicate RowExists(cfg: Config, i: nat) {
    i < |TaskIndices| && RowPosition(i) < |cfg.rows|
  }

  // ---------------------------------------------------------------------
  // Session state
  // ---------------------------------------------------------------------

  datatype Mode = AwaitingFirstAttempt | InitialFeedback | Main | Followup | Done

  /** The per-task session keys that the clearing loop deletes together
      (pages/1_FeedbackApp.py:348-362); `taskLog == None` is the empty dict. */
  datatype Task = Task(
    problem: string,
    correctSolution: string,
    similarProblem: string,
    similarSolution: string,
    taskLog: Option<TaskLog>,
    messages: seq<Message>,
    attemptSubmitted: bool,
    showFeedback: bool,
    showRubric: bool)

  /** The session state. `task == None` means the per-task keys are absent.
      `commentsBox` is the text in the closing comments box, `sheet` the rows
      appended to the spreadsheet. */
  datatype State = State(
    consentGiven: bool,
    taskIndex: nat,
    mode: Option<Mode>,
    task: Option<Task>,
    studentAttempt: Option<string>,
    log: SessionLog,
    taskCompleted: bool,
    feedback: Option<string>,
    commentsBox: string,
    additionalComments: Option<string>,
    sheet: seq<seq<string>>)

  /** The state on the first visit (pages/1_FeedbackApp.py:30-38, 67-68). */
  function Init(studentId: string, consentGiven: bool): State {
    State(consentGiven, 0, None, None, None, SessionLog(studentId, [], None), false, None, "", None, [])
  }

  /** How a run or an interaction can end with an exception. */
  datatype Error =
    | MissingRow(position: nat)      // `df.iloc` past the end of the dataset
    | StartSessionArity              // `start_session` called with four arguments
    | KeyError(key: string)          // a `str.format` field or a record key that is missing
    | MissingKey(key: string)        // a session-state key read before it is set
    | ModelCallFailed                // the call to the language model raised

  /** The button clicked in a run, with what was typed and what the
      language model and the clock answered. */
  datatype Click =
    | NoClick
    | AttemptClick(attempt: string, feedback: string, time: string)
    | SendClick
    | FinishClick
    | RubricClick(rubric: Rubric)
    | FollowupClick(answer: string, evaluation: string, time: string)
    | NextClick
    | SaveClick

  datatype RunOut = RunOut(state: State, rerun: bool, error: Option<Error>)

  // ---------------------------------------------------------------------
  // Updates of the task log
  // ---------------------------------------------------------------------

  /** Assigns into `task_log`. Once the log has been appended to the session
      (`task_completed`), the last entry of `tasks` is the same dict object,
      so it changes along. */
  function SetLog(s: State, tl: TaskLog): (r: State)
    requires s.task.Some?
    ensures r.task == Some(s.task.value.(taskLog := Some(tl)))
    ensures |r.log.tasks| == |s.log.tasks|
    ensures forall i :: 0 <= i < |s.log.tasks| - 1 ==> r.log.tasks[i] == s.log.tasks[i]
    ensures s.taskCompleted && |s.log.tasks| > 0 ==> Last(r.log.tasks) == tl
    ensures !s.taskCompleted ==> r.log.tasks == s.log.tasks
    ensures r == s.(task := r.task, log := r.log) && r.log == s.log.(tasks := r.log.tasks)
  {
    var tasks := if s.taskCompleted && |s.log.tasks| > 0 then s.log.tasks[|s.log.tasks| - 1 := tl] else s.log.tasks;
    s.(task := Some(s.task.value.(taskLog := Some(tl))), log := s.log.(tasks := tasks))
  }

  /** `messages = msgs` followed by `task_log["messages"] = messages`. */
  function WithMessages(s: State, msgs: seq<Message>): (r: State)
    requires s.task.Some?
    ensures r.task.Some? && r.task.value.messages == msgs
    ensures r.task.value.taskLog.Some? <==> s.task.value.taskLog.Some?
    ensures r.task.value.taskLog.Some? ==> r.task.value.taskLog.value.messages == msgs
    ensures s.task.value.taskLog.Some? ==> r.task.value.taskLog == Some(s.task.value.taskLog.value.(messages := msgs))
    ensures !s.taskCompleted ==> r.log == s.log
  {
    var t := s.task.value.(messages := msgs);
    var s1 := s.(task := Some(t));
    match t.taskLog
    case None => s1
    case Some(tl) => SetLog(s1, tl.(messages := msgs))
  }

  // ---------------------------------------------------------------------
  // One run of the script
  // ---------------------------------------------------------------------

  /** The per-task keys as a load sets them (pages/1_FeedbackApp.py:91-101). */
  function Fresh(row: ProblemRow): Task {
    Task(row.statement, row.solution.GetOr(""), row.newProblem.GetOr(""), row.newSolution.GetOr(""),
         None, [], false, false, false)
  }

  /** Task progression (pages/1_FeedbackApp.py:84-101): read the current row,
      and load it when the task keys are absent or the mode is "done". */
  function LoadPhase(cfg: Config, s: State): Result<State, Error> {
    if s.taskIndex >= |TaskIndices| then Success(s)
    else if !RowExists(cfg, s.taskIndex) then Failure(MissingRow(RowPosition(s.taskIndex)))
    else if s.task.None? || s.mode == Some(Done) then
      Success(s.(task := Some(Fresh(cfg.rows[RowPosition(s.taskIndex)])), mode := Some(AwaitingFirstAttempt)))
    else Success(s)
  }

  /** The first attempt (pages/1_FeedbackApp.py:185-214), for a non-blank text. */
  function AttemptPhase(cfg: Config, s: State, text: string, feedback: string, time: string): RunOut
    requires s.task.Some?
  {
    var attempt := Strip(text);
    var t := s.task.value;
    var tl := TaskLog(t.problem, attempt, t.correctSolution, [], t.similarProblem, t.similarSolution,
                      "", "", None, time);
    var s1 := s.(studentAttempt := Some(attempt), task := Some(t.(attemptSubmitted := true, taskLog := Some(tl))));
    match InitialFeedbackRequest(cfg.feedbackTemplate, t.problem, attempt, t.correctSolution)
    case Failure(k) => RunOut(s1, false, Some(KeyError(k)))
    case Success(_) =>
      var msgs := StartSession(cfg.tutorPrompt, t.problem, attempt, t.correctSolution, feedback);
      var s2 := s1.(task := Some(s1.task.value.(messages := msgs, taskLog := Some(tl.(messages := msgs)))));
      RunOut(s2.(mode := Some(InitialFeedback)), true, None)
  }

  /** Recording the evaluation (pages/1_FeedbackApp.py:300-312). */
  function RecordRubric(s: State, r: Rubric): State
    requires s.task.Some?
  {
    var s1 := match s.task.value.taskLog
              case None => s
              case Some(tl) => SetLog(s, tl.(rubrics := Some(r)));
    s1.(task := Some(s1.task.value.(showRubric := false)), mode := Some(Followup))
  }

  /** Recording a follow-up answer and its evaluation (pages/1_FeedbackApp.py:330-334).
      The answer is stored as typed, not stripped. */
  function RecordFollowup(s: State, answer: string, evaluation: string, time: string): State
    requires s.task.Some?
  {
    var s1 := match s.task.value.taskLog
              case None => s
              case Some(tl) => SetLog(s, tl.(followupResponse := answer, followupFeedback := evaluation, timestamp := time));
    s1.(feedback := Some(evaluation), task := Some(s1.task.value.(showFeedback := true)))
  }

  /** `session_log_data["tasks"].append(task_log)`; `task_completed = True`. */
  function AppendTask(s: State): State
    requires s.task.Some?
  {
    match s.task.value.taskLog
    case None => s.(taskCompleted := true)
    case Some(tl) => s.(log := s.log.(tasks := s.log.tasks + [tl]), taskCompleted := true)
  }

  /** The clearing loop and `task_completed = False` (pages/1_FeedbackApp.py:348-364). */
  function ClearTask(s: State): State {
    s.(task := None, studentAttempt := None, taskCompleted := false)
  }

  /** "Submit All & Save" (pages/1_FeedbackApp.py:387-391): store the
      comments, flatten the session, and hand the record to the sheet writer. */
  function SavePhase(cfg: Config, s: State): RunOut {
    var log := s.log.(additionalComments := Some(s.additionalComments.GetOr("")));
    var s1 := s.(log := log);
    var flat := FlattenSession(log, cfg.dumps);
    match cfg.revision
    case AsWritten =>
      (match SheetRow(AsRecord(flat), cfg.dumps)
       case Failure(k) => RunOut(s1, false, Some(KeyError(k)))
       case Success(row) => RunOut(s1.(sheet := s1.sheet + [row]), false, None))
    case Corrected => RunOut(s1.(sheet := s1.sheet + [SessionRow(log, cfg.dumps)]), false, None)
  }

  /** After the follow-up feedback (pages/1_FeedbackApp.py:337-391): append
      the task log once, then either leave the task or offer the save. As
      written, the clearing loop runs whenever a non-final task shows its
      feedback, whether or not "Next Task" was clicked. */
  function FeedbackPhase(cfg: Config, s: State, c: Click): RunOut
    requires s.task.Some?
  {
    if !s.task.value.showFeedback then RunOut(s, false, None)
    else
      var s1 := if !s.taskCompleted then AppendTask(s) else s;
      if s1.taskIndex < |TaskIndices| - 1 then
        var s2 := if c.NextClick? then s1.(taskIndex := s1.taskIndex + 1, mode := Some(Done)) else s1;
        match cfg.revision
        case AsWritten => RunOut(ClearTask(s2), true, None)
        case Corrected => if c.NextClick? then RunOut(ClearTask(s2), true, None) else RunOut(s1, false, None)
      else
        var s2 := s1.(additionalComments := Some(s1.commentsBox));
        if c.SaveClick? then SavePhase(cfg, s2) else RunOut(s2, false, None)
  }

  /** The follow-up section (pages/1_FeedbackApp.py:316-334). */
  function FollowupPhase(cfg: Config, s: State, c: Click): RunOut
    requires s.task.Some?
  {
    if s.mode != Some(Followup) then RunOut(s, false, None)
    else if c.FollowupClick? && Strip(c.answer) != "" then
      var t := s.task.value;
      match FollowupRequest(cfg.evaluationTemplate, t.similarProblem, c.answer, t.similarSolution)
      case Failure(k) => RunOut(s, false, Some(KeyError(k)))
      case Success(_) => FeedbackPhase(cfg, RecordFollowup(s, c.answer, c.evaluation, c.time), c)
    else FeedbackPhase(cfg, s, c)
  }

  /** The finish and evaluation section (pages/1_FeedbackApp.py:283-313). */
  function RubricPhase(cfg: Config, s: State, c: Click): RunOut
    requires s.task.Some?
  {
    if !s.task.value.attemptSubmitted then FollowupPhase(cfg, s, c)
    else
      var s1 := if c.FinishClick? then s.(task := Some(s.task.value.(showRubric := true))) else s;
      if s1.task.value.showRubric && c.RubricClick? then RunOut(RecordRubric(s1, c.rubric), true, None)
      else FollowupPhase(cfg, s1, c)
  }

  /** One run of the page script. Without consent the page switches away
      before touching anything (pages/1_FeedbackApp.py:49-51); without the
      per-task keys it stops at the guard (pages/1_FeedbackApp.py:105-107). */
  function Run(cfg: Config, s: State, c: Click): RunOut {
    if !s.consentGiven then RunOut(s, false, None)
    else match LoadPhase(cfg, s)
      case Failure(e) => RunOut(s, false, Some(e))
      case Success(s1) =>
        if s1.task.None? then RunOut(s1, false, None)
        else if s1.mode == Some(AwaitingFirstAttempt) && c.AttemptClick? && Strip(c.attempt) != "" then
          AttemptPhase(cfg, s1, c.attempt, c.feedback, c.time)
        else RubricPhase(cfg, s1, c)
  }

  // ---------------------------------------------------------------------
  // The reply callback
  // ---------------------------------------------------------------------

  /** `send_and_clear` (pages/1_FeedbackApp.py:230-271) with the reply box
      holding `box`; `reply` is the tutor's answer and `restartFeedback` the
      initial feedback a restarted session would open with. */
  function SendAndClear(cfg: Config, s: State, box: string, reply: string, restartFeedback: string)
    : (r: (State, Option<Error>))
    requires s.task.Some?
  {
    if Strip(box) == "" then (s, None)
    else
      var msg := Strip(box);
      var t := s.task.value;
      var s1 := WithMessages(s, t.messages + [Message(User, msg), Message(Assistant, reply)]);
      if s.mode == Some(InitialFeedback) && IsSessionCommand(msg) then
        match s.studentAttempt
        case None => (s1, Some(MissingKey("student_attempt")))
        case Some(attempt) =>
          match cfg.revision
          case AsWritten => (s1, Some(StartSessionArity))
          case Corrected =>
            match InitialFeedbackRequest(cfg.feedbackTemplate, t.problem, attempt, t.correctSolution)
            case Failure(k) => (s1, Some(KeyError(k)))
            case Success(_) =>
              var msgs := StartSession(cfg.tutorPrompt, t.problem, attempt, t.correctSolution, restartFeedback);
              (WithMessages(s1, msgs).(mode := Some(Main)), None)
      else (s1, None)
  }

  /** `send_and_clear` when the call to the language model raises
      (`openai.chat.completions.create` at pages/1_FeedbackApp.py:242, or
      `continue_session` at :262). As written, the student's turn is already
      in the conversation and in the task log (:233-238), so it stays there
      without an answer. Repaired, the turn is appended only once the call
      has returned, and the failed callback commits nothing. */
  function SendAndClearFailing(cfg: Config, s: State, box: string): (State, Option<Error>)
    requires s.task.Some?
  {
    if Strip(box) == "" then (s, None)
    else
      match cfg.revision
      case AsWritten => (WithMessages(s, s.task.value.messages + [Message(User, Strip(box))]), Some(ModelCallFailed))
      case Corrected => (s, Some(ModelCallFailed))
  }

  // ---------------------------------------------------------------------
  // Interactions
  // ---------------------------------------------------------------------

  datatype Event =
    | Visit                                                          // load or refresh the page
    | SubmitAttempt(attempt: string, feedback: string, time: string)
    | SendReply(box: string, reply: string, restartFeedback: string)
    | SendReplyFailing(box: string)                                  // a reply whose model call raises
    | Finish
    | SubmitRubric(rubric: Rubric, box: string, reply: string, restartFeedback: string)
    | SubmitFollowup(answer: string, evaluation: string, time: string)
    | NextTask
    | SaveAll(comments: string)

  /** The widget an event uses is on the page of a settled state. */
  predicate Offered(cfg: Config, s: State, e: Event) {
    if e.Visit? then true
    else
      s.consentGiven && RowExists(cfg, s.taskIndex) && s.task.Some? &&
      match e
      case SubmitAttempt(_, _, _) => s.mode == Some(AwaitingFirstAttempt)
      case SendReply(_, _, _) => s.mode == Some(InitialFeedback) || s.mode == Some(Main)
      case SendReplyFailing(_) => s.mode == Some(InitialFeedback) || s.mode == Some(Main)
      case Finish => s.task.value.attemptSubmitted
      case SubmitRubric(_, _, _, _) => s.task.value.attemptSubmitted && s.task.value.showRubric
      case SubmitFollowup(_, _, _) => s.mode == Some(Followup)
      case NextTask => s.mode == Some(Followup) && s.task.value.showFeedback && s.taskIndex < |TaskIndices| - 1
      case SaveAll(_) => s.mode == Some(Followup) && s.task.value.showFeedback && s.taskIndex >= |TaskIndices| - 1
      case Visit => true
  }

  function ClickOf(e: Event): Click {
    match e
    case Visit => NoClick
    case SubmitAttempt(a, f, t) => AttemptClick(a, f, t)
    case SendReply(_, _, _) => SendClick
    case SendReplyFailing(_) => SendClick
    case Finish => FinishClick
    case SubmitRubric(r, _, _, _) => RubricClick(r)
    case SubmitFollowup(a, v, t) => FollowupClick(a, v, t)
    case NextTask => NextClick
    case SaveAll(_) => SaveClick
  }

  /** What happens before the run: the `on_click` callback of the two
      buttons that have one, or the typing of the closing comments. */
  function BeforeRun(cfg: Config, s: State, e: Event): (State, Option<Error>)
    requires Offered(cfg, s, e)
  {
    match e
    case SendReply(box, reply, restart) => SendAndClear(cfg, s, box, reply, restart)
    case SubmitRubric(_, box, reply, restart) => SendAndClear(cfg, s, box, reply, restart)
    case SendReplyFailing(box) => SendAndClearFailing(cfg, s, box)
    case SaveAll(comments) => (s.(commentsBox := comments), None)
    case _ => (s, None)
  }

  datatype Outcome = Outcome(state: State, error: Option<Error>)

  /** The reruns after a run that called `st.rerun()`. Two runs suffice:
      `RerunChainEnds` shows the second never asks for a third. */
  function Settle(cfg: Config, s: State): Outcome {
    var r1 := Run(cfg, s, NoClick);
    if r1.error.Some? || !r1.rerun then Outcome(r1.state, r1.error)
    else
      var r2 := Run(cfg, r1.state, NoClick);
      Outcome(r2.state, r2.error)
  }

  /** One interaction with the page. */
  function Step(cfg: Config, s: State, e: Event): Outcome {
    if !Offered(cfg, s, e) then Outcome(s, None)
    else
      var (s1, err) := BeforeRun(cfg, s, e);
      if err.Some? then Outcome(s1, err)
      else
        var r := Run(cfg, s1, ClickOf(e));
        if r.error.Some? || !r.rerun then Outcome(r.state, r.error)
        else Settle(cfg, r.state)
  }

  /** A sequence of interactions; an exception leaves the session state as
      it was when the exception was raised, and the participant carries on. */
  function Trace(cfg: Config, s: State, es: seq<Event>): State
    decreases |es|
  {
    if es == [] then s else Trace(cfg, Step(cfg, s, es[0]).state, es[1..])
  }
}
