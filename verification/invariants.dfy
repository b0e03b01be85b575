/**
  The invariant of the tutoring page's session state, and its preservation
  by every script run, every callback and hence every interaction.
 */
module Invariants {
  import opened Basics
  import opened Text
  import opened Agent
  import opened Records
  import opened Flatten
  import opened FeedbackApp

  /** The mode is one in which the first attempt has been made. */
  predicate Engaged(m: Option<Mode>) {
    m == Some(InitialFeedback) || m == Some(Main) || m == Some(Followup)
  }

  /** As written, a non-final task never rests with its feedback shown: the
      run that shows it also clears the task. */
  predicate NoPendingClear(s: State) {
    s.task.Some? && s.mode == Some(Followup) && s.task.value.showFeedback ==> s.taskIndex >= |TaskIndices| - 1
  }

  /** The reachable session states. */
  predicate Valid(cfg: Config, s: State) {
    && s.taskIndex < |TaskIndices|
    && (s.mode == Some(Done) ==> s.task.None?)
    && (s.task.Some? ==> s.mode.Some?)
    && (s.task.Some? && s.task.value.attemptSubmitted ==> s.task.value.taskLog.Some? && s.studentAttempt.Some?)
    && (s.task.Some? && Engaged(s.mode) ==> s.task.value.attemptSubmitted)
    && (s.task.Some? && s.task.value.showFeedback ==> s.mode == Some(Followup))
    // while the task counts as completed, the last session entry is its log
    && (s.taskCompleted ==> s.task.Some? && s.mode == Some(Followup) && s.task.value.showFeedback
                            && |s.log.tasks| > 0 && s.task.value.taskLog == Some(Last(s.log.tasks)))
    && (cfg.revision == AsWritten ==> NoPendingClear(s))
    // with the repairs, every finished task is in the session exactly once
    && (cfg.revision == Corrected ==> |s.log.tasks| == s.taskIndex + (if s.taskCompleted then 1 else 0))
  }

  lemma InitValid(cfg: Config, studentId: string, consentGiven: bool)
    ensures Valid(cfg, Init(studentId, consentGiven))
  {
  }

  lemma LoadValid(cfg: Config, s: State)
    requires Valid(cfg, s)
    ensures LoadPhase(cfg, s).Success? ==> Valid(cfg, LoadPhase(cfg, s).value)
    ensures LoadPhase(cfg, s).Success? ==> LoadPhase(cfg, s).value.log == s.log
    ensures LoadPhase(cfg, s).Success? ==> LoadPhase(cfg, s).value.taskIndex == s.taskIndex
  {
  }

  lemma SetLogValid(cfg: Config, s: State, tl: TaskLog)
    requires Valid(cfg, s) && s.task.Some? && s.task.value.taskLog.Some?
    ensures Valid(cfg, SetLog(s, tl))
  {
  }

  lemma WithMessagesValid(cfg: Config, s: State, msgs: seq<Message>)
    requires Valid(cfg, s) && s.task.Some?
    ensures Valid(cfg, WithMessages(s, msgs))
    ensures WithMessages(s, msgs).mode == s.mode && WithMessages(s, msgs).taskIndex == s.taskIndex
  {
    var t := s.task.value.(messages := msgs);
    var s1 := s.(task := Some(t));
    assert Valid(cfg, s1);
    if t.taskLog.Some? {
      SetLogValid(cfg, s1, t.taskLog.value.(messages := msgs));
    }
  }

  lemma AttemptValid(cfg: Config, s: State, text: string, feedback: string, time: string)
    requires Valid(cfg, s) && s.task.Some? && s.mode == Some(AwaitingFirstAttempt)
    ensures Valid(cfg, AttemptPhase(cfg, s, text, feedback, time).state)
    ensures AttemptPhase(cfg, s, text, feedback, time).state.taskIndex == s.taskIndex
  {
  }

  lemma RecordRubricValid(cfg: Config, s: State, r: Rubric)
    requires Valid(cfg, s) && s.task.Some? && s.task.value.attemptSubmitted
    ensures Valid(cfg, RecordRubric(s, r))
  {
    var tl := s.task.value.taskLog.value;
    SetLogValid(cfg, s, tl.(rubrics := Some(r)));
  }

  lemma RecordFollowupValid(cfg: Config, s: State, answer: string, evaluation: string, time: string)
    requires Valid(cfg, s) && s.task.Some? && s.mode == Some(Followup)
    ensures var s1 := RecordFollowup(s, answer, evaluation, time);
            && s1.task.Some? && s1.task.value.showFeedback && s1.task.value.taskLog.Some?
            && s1.mode == s.mode && s1.taskIndex == s.taskIndex && s1.taskCompleted == s.taskCompleted
            && |s1.log.tasks| == |s.log.tasks|
            && (forall i :: 0 <= i < |s.log.tasks| - (if s.taskCompleted then 1 else 0) ==> s1.log.tasks[i] == s.log.tasks[i])
            && (s1.taskCompleted ==> s1.task.value.taskLog == Some(Last(s1.log.tasks)))
            && (s.task.Some? && s1.task.value.attemptSubmitted ==> s1.studentAttempt.Some?)
            && s1.task.value.attemptSubmitted
  {
    var tl := s.task.value.taskLog.value;
    SetLogValid(cfg, s, tl.(followupResponse := answer, followupFeedback := evaluation, timestamp := time));
  }

  /** The state the feedback section runs on: valid, except that the
      feedback may have been switched on in this very run. */
  predicate FeedbackReady(cfg: Config, s: State) {
    && s.task.Some? && s.mode == Some(Followup) && s.task.value.attemptSubmitted
    && s.task.value.taskLog.Some? && s.studentAttempt.Some?
    && s.taskIndex < |TaskIndices|
    && (s.taskCompleted ==> |s.log.tasks| > 0 && s.task.value.taskLog == Some(Last(s.log.tasks)))
    && (cfg.revision == Corrected ==> |s.log.tasks| == s.taskIndex + (if s.taskCompleted then 1 else 0))
  }

  /** Saving touches only the closing comments of the session log and the sheet. */
  lemma SavePhaseKeeps(cfg: Config, s: State)
    ensures var r := SavePhase(cfg, s);
            && r.state == s.(log := r.state.log, sheet := r.state.sheet)
            && r.state.log.tasks == s.log.tasks
            && r.state.log == s.log.(additionalComments := Some(s.additionalComments.GetOr("")))
  {
  }

  lemma FeedbackValid(cfg: Config, s: State, c: Click)
    requires FeedbackReady(cfg, s)
    requires !s.task.value.showFeedback ==> Valid(cfg, s)
    ensures Valid(cfg, FeedbackPhase(cfg, s, c).state)
    ensures FeedbackPhase(cfg, s, c).state.taskIndex == s.taskIndex
            || (FeedbackPhase(cfg, s, c).state.taskIndex == s.taskIndex + 1 && c.NextClick?
                && s.task.value.showFeedback && s.taskIndex < |TaskIndices| - 1)
  {
    if s.task.value.showFeedback {
      var s1 := if !s.taskCompleted then AppendTask(s) else s;
      assert s1.taskCompleted && |s1.log.tasks| > 0 && s1.task.value.taskLog == Some(Last(s1.log.tasks));
      if s1.taskIndex < |TaskIndices| - 1 {
        var s2 := if c.NextClick? then s1.(taskIndex := s1.taskIndex + 1, mode := Some(Done)) else s1;
        if cfg.revision == AsWritten || c.NextClick? {
          assert FeedbackPhase(cfg, s, c).state == ClearTask(s2);
          assert Valid(cfg, ClearTask(s2));
        } else {
          assert FeedbackPhase(cfg, s, c).state == s1;
          assert Valid(cfg, s1);
        }
      } else {
        var s2 := s1.(additionalComments := Some(s1.commentsBox));
        assert Valid(cfg, s2);
        if c.SaveClick? {
          assert FeedbackPhase(cfg, s, c) == SavePhase(cfg, s2);
          SavePhaseKeeps(cfg, s2);
        }
      }
    }
  }

  lemma FollowupValid(cfg: Config, s: State, c: Click)
    requires Valid(cfg, s) && s.task.Some?
    ensures Valid(cfg, FollowupPhase(cfg, s, c).state)
    ensures FollowupPhase(cfg, s, c).state.taskIndex == s.taskIndex
            || (FollowupPhase(cfg, s, c).state.taskIndex == s.taskIndex + 1 && c.NextClick?
                && s.taskIndex < |TaskIndices| - 1)
  {
    if s.mode == Some(Followup) {
      if c.FollowupClick? && Strip(c.answer) != "" {
        var s1 := RecordFollowup(s, c.answer, c.evaluation, c.time);
        RecordFollowupValid(cfg, s, c.answer, c.evaluation, c.time);
        FeedbackValid(cfg, s1, c);
      } else {
        FeedbackValid(cfg, s, c);
      }
    }
  }

  lemma RubricValid(cfg: Config, s: State, c: Click)
    requires Valid(cfg, s) && s.task.Some?
    ensures Valid(cfg, RubricPhase(cfg, s, c).state)
    ensures RubricPhase(cfg, s, c).state.taskIndex == s.taskIndex
            || (RubricPhase(cfg, s, c).state.taskIndex == s.taskIndex + 1 && c.NextClick?
                && s.taskIndex < |TaskIndices| - 1)
  {
    if s.task.value.attemptSubmitted {
      var s1 := if c.FinishClick? then s.(task := Some(s.task.value.(showRubric := true))) else s;
      assert Valid(cfg, s1);
      if s1.task.value.showRubric && c.RubricClick? {
        RecordRubricValid(cfg, s1, c.rubric);
      } else {
        FollowupValid(cfg, s1, c);
      }
    } else {
      FollowupValid(cfg, s, c);
    }
  }

  /** Every run keeps the state valid, and moves to the next task only on a
      click of "Next Task". */
  lemma RunValid(cfg: Config, s: State, c: Click)
    requires Valid(cfg, s)
    ensures Valid(cfg, Run(cfg, s, c).state)
    ensures Run(cfg, s, c).state.taskIndex == s.taskIndex
            || (Run(cfg, s, c).state.taskIndex == s.taskIndex + 1 && c.NextClick?
                && s.taskIndex < |TaskIndices| - 1)
  {
    if s.consentGiven {
      LoadValid(cfg, s);
      match LoadPhase(cfg, s)
      case Failure(_) =>
      case Success(s1) =>
        if s1.task.Some? {
          if s1.mode == Some(AwaitingFirstAttempt) && c.AttemptClick? && Strip(c.attempt) != "" {
            AttemptValid(cfg, s1, c.attempt, c.feedback, c.time);
          } else {
            RubricValid(cfg, s1, c);
          }
        }
    }
  }

  lemma SendAndClearValid(cfg: Config, s: State, box: string, reply: string, restart: string)
    requires Valid(cfg, s) && s.task.Some?
    ensures Valid(cfg, SendAndClear(cfg, s, box, reply, restart).0)
    ensures SendAndClear(cfg, s, box, reply, restart).0.taskIndex == s.taskIndex
  {
    if Strip(box) != "" {
      var t := s.task.value;
      var msg := Strip(box);
      var s1 := WithMessages(s, t.messages + [Message(User, msg), Message(Assistant, reply)]);
      WithMessagesValid(cfg, s, t.messages + [Message(User, msg), Message(Assistant, reply)]);
      if s.mode == Some(InitialFeedback) && IsSessionCommand(msg) && s.studentAttempt.Some? && cfg.revision == Corrected {
        var attempt := s.studentAttempt.value;
        if InitialFeedbackRequest(cfg.feedbackTemplate, t.problem, attempt, t.correctSolution).Success? {
          var msgs := StartSession(cfg.tutorPrompt, t.problem, attempt, t.correctSolution, restart);
          WithMessagesValid(cfg, s1, msgs);
        }
      }
    }
  }

  lemma BeforeRunValid(cfg: Config, s: State, e: Event)
    requires Valid(cfg, s) && Offered(cfg, s, e)
    ensures Valid(cfg, BeforeRun(cfg, s, e).0)
    ensures BeforeRun(cfg, s, e).0.taskIndex == s.taskIndex
  {
    match e
    case SendReply(box, reply, restart) => SendAndClearValid(cfg, s, box, reply, restart);
    case SubmitRubric(_, box, reply, restart) => SendAndClearValid(cfg, s, box, reply, restart);
    case SendReplyFailing(box) =>
      if Strip(box) != "" && cfg.revision == AsWritten {
        WithMessagesValid(cfg, s, s.task.value.messages + [Message(User, Strip(box))]);
      }
    case _ =>
  }

  lemma SettleValid(cfg: Config, s: State)
    requires Valid(cfg, s)
    ensures Valid(cfg, Settle(cfg, s).state)
    ensures Settle(cfg, s).state.taskIndex == s.taskIndex
  {
    RunValid(cfg, s, NoClick);
    RunValid(cfg, Run(cfg, s, NoClick).state, NoClick);
  }

  /** Every interaction keeps the session state valid; the task index moves
      by at most one, and only through "Next Task". */
  lemma StepValid(cfg: Config, s: State, e: Event)
    requires Valid(cfg, s)
    ensures Valid(cfg, Step(cfg, s, e).state)
    ensures Step(cfg, s, e).state.taskIndex == s.taskIndex
            || (Step(cfg, s, e).state.taskIndex == s.taskIndex + 1 && e.NextTask?
                && s.taskIndex < |TaskIndices| - 1)
  {
    if Offered(cfg, s, e) {
      BeforeRunValid(cfg, s, e);
      var (s1, err) := BeforeRun(cfg, s, e);
      if err.None? {
        RunValid(cfg, s1, ClickOf(e));
        var r := Run(cfg, s1, ClickOf(e));
        if r.error.None? && r.rerun {
          SettleValid(cfg, r.state);
        }
      }
    }
  }

  /** Every state a session reaches from the first visit is valid. */
  lemma {:induction false} TraceValid(cfg: Config, s: State, es: seq<Event>)
    requires Valid(cfg, s)
    ensures Valid(cfg, Trace(cfg, s, es))
    decreases |es|
  {
    if es != [] {
      StepValid(cfg, s, es[0]);
      TraceValid(cfg, Step(cfg, s, es[0]).state, es[1..]);
    }
  }
}
