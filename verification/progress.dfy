/**
  What each interaction with the tutoring page does to the session, as the
  page promises it (pages/1_FeedbackApp.py), and where the page as written
  departs from that.
 */
module Progress {
  import opened Basics
  import opened Text
  import opened Agent
  import opened Records
  import opened Flatten
  import opened FeedbackApp
  import opened Invariants

  /** A state the page rests in: with the feedback shown, the task log has
      been appended, the task is the last one (or the page is repaired), and
      the stored comments are those in the box. */
  predicate Settled(cfg: Config, s: State) {
    s.consentGiven && s.task.Some? ==>
      && RowExists(cfg, s.taskIndex)
      && (s.task.value.showFeedback ==>
            && s.taskCompleted
            && (s.taskIndex < |TaskIndices| - 1 ==> cfg.revision == Corrected)
            && (s.taskIndex >= |TaskIndices| - 1 ==> s.additionalComments == Some(s.commentsBox)))
  }

  /** A click that no code path of the run looks at. */
  predicate Inert(c: Click) {
    c.NoClick? || c.SendClick? || (c.AttemptClick? && Strip(c.attempt) == "")
    || (c.FollowupClick? && Strip(c.answer) == "")
  }

  /** Buttons whose condition fails, and buttons without an effect, leave
      the run as if nothing had been clicked. */
  lemma InertClick(cfg: Config, s: State, c: Click)
    requires Inert(c)
    ensures Run(cfg, s, c) == Run(cfg, s, NoClick)
  {
    if s.consentGiven && LoadPhase(cfg, s).Success? && LoadPhase(cfg, s).value.task.Some? {
      var s1 := LoadPhase(cfg, s).value;
      assert RubricPhase(cfg, s1, c) == RubricPhase(cfg, s1, NoClick) by {
        if s1.mode == Some(Followup) && s1.task.value.showFeedback {
          var s2 := if !s1.taskCompleted then AppendTask(s1) else s1;
          assert FeedbackPhase(cfg, s1, c) == FeedbackPhase(cfg, s1, NoClick);
        }
      }
    }
  }

  /** A rerun of a settled page finds nothing to do. */
  lemma SettledIsIdle(cfg: Config, s: State)
    requires Valid(cfg, s) && Settled(cfg, s) && s.task.Some?
    ensures Run(cfg, s, NoClick) == RunOut(s, false, None)
  {
    if s.consentGiven {
      assert LoadPhase(cfg, s) == Success(s);
      if s.mode == Some(Followup) && s.task.value.showFeedback {
        assert FeedbackPhase(cfg, s, NoClick) == RunOut(s, false, None);
      }
    }
  }

  /** An interaction whose run ends in a settled state needs no more runs:
      the reruns it asks for find nothing to do. */
  lemma RunThenRest(cfg: Config, s: State, e: Event)
    requires Offered(cfg, s, e) && BeforeRun(cfg, s, e).1.None?
    requires var r := Run(cfg, BeforeRun(cfg, s, e).0, ClickOf(e));
             r.error.None? && r.rerun ==> Valid(cfg, r.state) && Settled(cfg, r.state) && r.state.task.Some?
    ensures var r := Run(cfg, BeforeRun(cfg, s, e).0, ClickOf(e));
            Step(cfg, s, e) == Outcome(r.state, r.error)
  {
    var r := Run(cfg, BeforeRun(cfg, s, e).0, ClickOf(e));
    if r.error.None? && r.rerun {
      SettledIsIdle(cfg, r.state);
    }
  }

  // ---------------------------------------------------------------------
  // Every reachable state is settled
  // ---------------------------------------------------------------------

  /** The feedback section leaves a settled state: once the feedback is
      shown, the task log is appended, and on the last task the comments
      are copied (pages/1_FeedbackApp.py:337-391). */
  lemma FeedbackSettled(cfg: Config, s: State, c: Click)
    requires FeedbackReady(cfg, s) && RowExists(cfg, s.taskIndex)
    requires !s.task.value.showFeedback ==> Valid(cfg, s) && Settled(cfg, s)
    ensures Settled(cfg, FeedbackPhase(cfg, s, c).state)
  {
    if s.task.value.showFeedback {
      var s1 := if !s.taskCompleted then AppendTask(s) else s;
      if s1.taskIndex >= |TaskIndices| - 1 && c.SaveClick? {
        var s2 := s1.(additionalComments := Some(s1.commentsBox));
        assert FeedbackPhase(cfg, s, c) == SavePhase(cfg, s2);
        SavePhaseKeeps(cfg, s2);
      }
    }
  }

  lemma FollowupSettled(cfg: Config, s: State, c: Click)
    requires Valid(cfg, s) && Settled(cfg, s) && s.task.Some? && RowExists(cfg, s.taskIndex)
    ensures Settled(cfg, FollowupPhase(cfg, s, c).state)
  {
    if s.mode == Some(Followup) {
      if c.FollowupClick? && Strip(c.answer) != "" {
        RecordFollowupValid(cfg, s, c.answer, c.evaluation, c.time);
        FeedbackSettled(cfg, RecordFollowup(s, c.answer, c.evaluation, c.time), c);
      } else {
        FeedbackSettled(cfg, s, c);
      }
    }
  }

  lemma RubricSettled(cfg: Config, s: State, c: Click)
    requires Valid(cfg, s) && Settled(cfg, s) && s.task.Some? && RowExists(cfg, s.taskIndex)
    ensures Settled(cfg, RubricPhase(cfg, s, c).state)
  {
    if s.task.value.attemptSubmitted {
      var s1 := if c.FinishClick? then s.(task := Some(s.task.value.(showRubric := true))) else s;
      assert Valid(cfg, s1) && Settled(cfg, s1);
      if !(s1.task.value.showRubric && c.RubricClick?) {
        FollowupSettled(cfg, s1, c);
      }
    } else {
      FollowupSettled(cfg, s, c);
    }
  }

  /** A run from a valid, settled state ends settled. */
  lemma RunSettled(cfg: Config, s: State, c: Click)
    requires Valid(cfg, s) && Settled(cfg, s)
    ensures Settled(cfg, Run(cfg, s, c).state)
  {
    if s.consentGiven {
      LoadValid(cfg, s);
      match LoadPhase(cfg, s)
      case Failure(_) =>
      case Success(s1) =>
        if s1.task.Some? && !(s1.mode == Some(AwaitingFirstAttempt) && c.AttemptClick? && Strip(c.attempt) != "") {
          assert Settled(cfg, s1);
          RubricSettled(cfg, s1, c);
        }
    }
  }

  /** "Submit All & Save" after typing new comments: the run copies the new
      comments, so the state is settled again although the typing alone
      left it unsettled. */
  lemma SaveRunSettled(cfg: Config, s: State, comments: string)
    requires Valid(cfg, s) && Settled(cfg, s) && Offered(cfg, s, SaveAll(comments))
    ensures Settled(cfg, Run(cfg, s.(commentsBox := comments), SaveClick).state)
  {
    var s1 := s.(commentsBox := comments);
    assert LoadPhase(cfg, s1) == Success(s1);
    assert Run(cfg, s1, SaveClick) == FeedbackPhase(cfg, s1, SaveClick);
    FeedbackSettled(cfg, s1, SaveClick);
  }

  lemma SettleSettled(cfg: Config, s: State)
    requires Valid(cfg, s) && Settled(cfg, s)
    ensures Settled(cfg, Settle(cfg, s).state)
  {
    RunValid(cfg, s, NoClick);
    RunSettled(cfg, s, NoClick);
    RunSettled(cfg, Run(cfg, s, NoClick).state, NoClick);
  }

  /** Every interaction from a valid, settled state ends settled. */
  lemma StepSettled(cfg: Config, s: State, e: Event)
    requires Valid(cfg, s) && Settled(cfg, s)
    ensures Settled(cfg, Step(cfg, s, e).state)
  {
    if Offered(cfg, s, e) {
      BeforeRunValid(cfg, s, e);
      var (s1, err) := BeforeRun(cfg, s, e);
      if err.None? {
        var r := Run(cfg, s1, ClickOf(e));
        if e.SaveAll? {
          SaveRunSettled(cfg, s, e.comments);
        } else {
          if e.SendReply? || e.SubmitRubric? {
            SendAndClearKeepsProgress(cfg, s, e.box, e.reply, e.restartFeedback);
          }
          assert Settled(cfg, s1);
          RunSettled(cfg, s1, ClickOf(e));
        }
        if r.error.None? && r.rerun {
          RunValid(cfg, s1, ClickOf(e));
          SettleSettled(cfg, r.state);
        }
      } else if e.SendReplyFailing? {
        if cfg.revision == AsWritten {
          WithMessagesKeeps(s, s.task.value.messages + [Message(User, Strip(e.box))]);
        }
      } else {
        SendAndClearKeepsProgress(cfg, s, e.box, e.reply, e.restartFeedback);
      }
    }
  }

  /** Every state a session reaches from the first visit is valid and
      settled, so the lemmas below that assume `Settled` apply to all of
      them. */
  lemma {:induction false} TraceSettled(cfg: Config, s: State, es: seq<Event>)
    requires Valid(cfg, s) && Settled(cfg, s)
    ensures Valid(cfg, Trace(cfg, s, es)) && Settled(cfg, Trace(cfg, s, es))
    decreases |es|
  {
    if es != [] {
      StepValid(cfg, s, es[0]);
      StepSettled(cfg, s, es[0]);
      TraceSettled(cfg, Step(cfg, s, es[0]).state, es[1..]);
    }
  }

  lemma ReachableSettled(cfg: Config, studentId: string, consentGiven: bool, es: seq<Event>)
    ensures var s := Trace(cfg, Init(studentId, consentGiven), es);
            Valid(cfg, s) && Settled(cfg, s)
  {
    InitValid(cfg, studentId, consentGiven);
    TraceSettled(cfg, Init(studentId, consentGiven), es);
  }

  /** Without consent the page redirects before anything else happens
      (pages/1_FeedbackApp.py:49-51). */
  lemma NoConsentNoChange(cfg: Config, s: State, e: Event)
    requires !s.consentGiven
    ensures Step(cfg, s, e) == Outcome(s, None)
  {
  }

  /** Loading a task (pages/1_FeedbackApp.py:84-101): when the per-task keys
      are absent or the mode is "done", the current row is read and every
      per-task key starts over: awaiting the first attempt, no messages, an
      empty task log, all three flags down. Nothing else changes. */
  lemma VisitLoadsTask(cfg: Config, s: State)
    requires s.consentGiven && RowExists(cfg, s.taskIndex)
    requires s.task.None? || s.mode == Some(Done)
    ensures var r := Step(cfg, s, Visit);
            var row := cfg.rows[RowPosition(s.taskIndex)];
            && r.error.None?
            && r.state.mode == Some(AwaitingFirstAttempt)
            && r.state.task.Some?
            && r.state.task.value.problem == row.statement
            && r.state.task.value.correctSolution == row.solution.GetOr("")
            && r.state.task.value.similarProblem == row.newProblem.GetOr("")
            && r.state.task.value.similarSolution == row.newSolution.GetOr("")
            && r.state.task.value.taskLog.None?
            && r.state.task.value.messages == []
            && !r.state.task.value.attemptSubmitted
            && !r.state.task.value.showFeedback
            && !r.state.task.value.showRubric
            && r.state == s.(task := r.state.task, mode := r.state.mode)
  {
  }

  /** A loaded task is not loaded again while its mode is not "done"
      (pages/1_FeedbackApp.py:90). */
  lemma LoadedTaskStays(cfg: Config, s: State)
    requires Valid(cfg, s) && s.task.Some? && RowExists(cfg, s.taskIndex)
    ensures LoadPhase(cfg, s) == Success(s)
  {
  }

  /** A blank first attempt changes nothing (pages/1_FeedbackApp.py:185). */
  lemma BlankAttemptChangesNothing(cfg: Config, s: State, text: string, feedback: string, time: string)
    requires Valid(cfg, s) && Settled(cfg, s) && IsBlank(text)
    ensures Step(cfg, s, SubmitAttempt(text, feedback, time)) == Outcome(s, None)
  {
    var e := SubmitAttempt(text, feedback, time);
    if Offered(cfg, s, e) {
      StripEmptyIffBlank(text);
      InertClick(cfg, s, ClickOf(e));
      SettledIsIdle(cfg, s);
    }
  }

  /** A first attempt with text (pages/1_FeedbackApp.py:185-214) stores the
      stripped attempt, marks it submitted, builds the task log with empty
      follow-up fields, no rubric and the current time, opens the
      conversation with `start_session`'s three messages, and moves to the
      initial feedback. If the feedback template names a field it is not
      given, the `KeyError` leaves the attempt stored and the mode unchanged. */
  lemma AttemptStartsSession(cfg: Config, s: State, text: string, feedback: string, time: string)
    requires Valid(cfg, s) && Offered(cfg, s, SubmitAttempt(text, feedback, time))
    requires Strip(text) != ""
    ensures var r := Step(cfg, s, SubmitAttempt(text, feedback, time));
            var t := s.task.value;
            var attempt := Strip(text);
            var req := InitialFeedbackRequest(cfg.feedbackTemplate, t.problem, attempt, t.correctSolution);
            && r.state.studentAttempt == Some(attempt)
            && r.state.task.Some? && r.state.task.value.attemptSubmitted
            && r.state.taskIndex == s.taskIndex && r.state.log == s.log
            && (req.Success? ==>
                  var msgs := StartSession(cfg.tutorPrompt, t.problem, attempt, t.correctSolution, feedback);
                  && r.error.None?
                  && r.state.mode == Some(InitialFeedback)
                  && r.state.task.value.messages == msgs
                  && r.state.task.value.taskLog
                     == Some(TaskLog(t.problem, attempt, t.correctSolution, msgs, t.similarProblem,
                                     t.similarSolution, "", "", None, time)))
            && (req.Failure? ==> r.error == Some(KeyError(req.error)) && r.state.mode == s.mode)
  {
    var e := SubmitAttempt(text, feedback, time);
    assert LoadPhase(cfg, s) == Success(s);
    var r := AttemptPhase(cfg, s, text, feedback, time);
    assert Run(cfg, s, ClickOf(e)) == r;
    AttemptValid(cfg, s, text, feedback, time);
    RunThenRest(cfg, s, e);
  }

  /** A blank reply changes nothing (pages/1_FeedbackApp.py:231). */
  lemma BlankReplyChangesNothing(cfg: Config, s: State, box: string, reply: string, restart: string)
    requires Valid(cfg, s) && Settled(cfg, s) && IsBlank(box)
    ensures Step(cfg, s, SendReply(box, reply, restart)) == Outcome(s, None)
  {
    var e := SendReply(box, reply, restart);
    if Offered(cfg, s, e) {
      StripEmptyIffBlank(box);
      InertClick(cfg, s, ClickOf(e));
      SettledIsIdle(cfg, s);
    }
  }

  /** Replacing the conversation touches only the messages, the task log and
      its mirror in the session. */
  lemma WithMessagesKeeps(s: State, msgs: seq<Message>)
    requires s.task.Some?
    ensures var r := WithMessages(s, msgs);
            && r == s.(task := r.task, log := r.log)
            && |r.log.tasks| == |s.log.tasks|
            && r.task.value == s.task.value.(messages := msgs, taskLog := r.task.value.taskLog)
            && (s.task.value.taskLog.Some? ==> r.task.value.taskLog == Some(s.task.value.taskLog.value.(messages := msgs)))
            && (!s.taskCompleted ==> r.log == s.log)
            && r.log == s.log.(tasks := r.log.tasks)
            && (forall i :: 0 <= i < |s.log.tasks| - 1 ==> r.log.tasks[i] == s.log.tasks[i])
  {
  }

  /** A reply whose callback succeeds and leaves a settled state: the run
      after the callback, with the send button as its click, has nothing to
      do. */
  lemma CallbackThenIdle(cfg: Config, s: State, box: string, reply: string, restart: string)
    requires Offered(cfg, s, SendReply(box, reply, restart))
    requires var (s1, err) := SendAndClear(cfg, s, box, reply, restart);
             err.None? && Valid(cfg, s1) && Settled(cfg, s1) && s1.task.Some?
    ensures Step(cfg, s, SendReply(box, reply, restart))
         == Outcome(SendAndClear(cfg, s, box, reply, restart).0, None)
  {
    var s1 := SendAndClear(cfg, s, box, reply, restart).0;
    InertClick(cfg, s1, SendClick);
    SettledIsIdle(cfg, s1);
  }

  /** A reply with text that is not a session command (or is sent in the
      main session) appends exactly the stripped reply as the student's turn
      and the tutor's answer, keeping the conversation before them, the mode
      and the task (pages/1_FeedbackApp.py:231-247, 261-267). */
  lemma ReplyAppendsTurn(cfg: Config, s: State, box: string, reply: string, restart: string)
    requires Valid(cfg, s) && Offered(cfg, s, SendReply(box, reply, restart))
    requires Strip(box) != ""
    requires s.mode == Some(Main) || !IsSessionCommand(Strip(box))
    ensures var r := Step(cfg, s, SendReply(box, reply, restart));
            && r.error.None?
            && r.state.task.Some?
            && r.state.task.value.messages
               == s.task.value.messages + [Message(User, Strip(box)), Message(Assistant, reply)]
            && r.state.mode == s.mode && r.state.taskIndex == s.taskIndex
            && r.state.studentAttempt == s.studentAttempt
            && r.state.task.value.problem == s.task.value.problem
            && (s.task.value.taskLog.Some? ==>
                  r.state.task.value.taskLog == Some(s.task.value.taskLog.value.(messages := r.state.task.value.messages)))
  {
    var msgs := s.task.value.messages + [Message(User, Strip(box)), Message(Assistant, reply)];
    var s1 := WithMessages(s, msgs);
    WithMessagesValid(cfg, s, msgs);
    WithMessagesKeeps(s, msgs);
    assert SendAndClear(cfg, s, box, reply, restart) == (s1, None);
    CallbackThenIdle(cfg, s, box, reply, restart);
  }

  /** As written, typing "start" or "continue" (in any letter case) during the
      initial feedback raises a `TypeError`: `start_session` takes five
      arguments and is given four (pages/1_FeedbackApp.py:250-256). The turn
      is already in the conversation and the mode stays. */
  lemma StartCommandCrashes(cfg: Config, s: State, box: string, reply: string, restart: string)
    requires cfg.revision == AsWritten
    requires Valid(cfg, s) && Offered(cfg, s, SendReply(box, reply, restart))
    requires s.mode == Some(InitialFeedback) && IsSessionCommand(Strip(box))
    ensures var r := Step(cfg, s, SendReply(box, reply, restart));
            && r.error == Some(StartSessionArity)
            && r.state.mode == Some(InitialFeedback)
            && r.state.task.Some?
            && r.state.task.value.messages
               == s.task.value.messages + [Message(User, Strip(box)), Message(Assistant, reply)]
  {
    assert Strip(box) != "";
    var msgs := s.task.value.messages + [Message(User, Strip(box)), Message(Assistant, reply)];
    var s1 := WithMessages(s, msgs);
    WithMessagesKeeps(s, msgs);
    assert SendAndClear(cfg, s, box, reply, restart) == (s1, Some(StartSessionArity));
  }

  /** As written, when the language model's call raises, the student's turn
      stays in the conversation and in the task log without an answer
      (pages/1_FeedbackApp.py:233-242): the interaction that failed has
      committed a change. */
  lemma AsWrittenFailedReplyKeepsTurn(cfg: Config, s: State, box: string)
    requires cfg.revision == AsWritten
    requires Valid(cfg, s) && Offered(cfg, s, SendReplyFailing(box)) && Strip(box) != ""
    ensures var r := Step(cfg, s, SendReplyFailing(box));
            && r.error == Some(ModelCallFailed)
            && r.state != s
            && r.state.task.Some? && s.task.value.taskLog.Some?
            && r.state.task.value.messages == s.task.value.messages + [Message(User, Strip(box))]
            && r.state.task.value.taskLog == Some(s.task.value.taskLog.value.(messages := r.state.task.value.messages))
            && r.state.mode == s.mode && r.state.taskIndex == s.taskIndex
  {
    WithMessagesKeeps(s, s.task.value.messages + [Message(User, Strip(box))]);
  }

  /** A turn appended before the next ones reads as one longer append. */
  lemma AppendAfterTurn(msgs: seq<Message>, turn: Message, next: seq<Message>)
    ensures msgs + [turn] + next == msgs + ([turn] + next)
  {
  }

  /** As written, the next reply after a failed one sends the model two
      student turns in a row. */
  lemma AsWrittenRetryRepeatsTurn(cfg: Config, s: State, box: string, retry: string, reply: string, restart: string)
    requires cfg.revision == AsWritten
    requires Valid(cfg, s) && Offered(cfg, s, SendReplyFailing(box)) && Strip(box) != "" && Strip(retry) != ""
    requires s.mode == Some(Main) || !IsSessionCommand(Strip(retry))
    ensures var s1 := Step(cfg, s, SendReplyFailing(box)).state;
            var r := Step(cfg, s1, SendReply(retry, reply, restart));
            && r.error.None? && r.state.task.Some?
            && r.state.task.value.messages
               == s.task.value.messages + [Message(User, Strip(box)), Message(User, Strip(retry)), Message(Assistant, reply)]
  {
    var s1 := WithMessages(s, s.task.value.messages + [Message(User, Strip(box))]);
    assert Step(cfg, s, SendReplyFailing(box)).state == s1;
    WithMessagesKeeps(s, s.task.value.messages + [Message(User, Strip(box))]);
    WithMessagesValid(cfg, s, s.task.value.messages + [Message(User, Strip(box))]);
    assert Offered(cfg, s1, SendReply(retry, reply, restart));
    ReplyAppendsTurn(cfg, s1, retry, reply, restart);
    AppendAfterTurn(s.task.value.messages, Message(User, Strip(box)), [Message(User, Strip(retry)), Message(Assistant, reply)]);
  }

  /** Repaired, a reply whose model call raises commits nothing: the state is
      the one before the click, and the error is reported. */
  lemma CorrectedFailedReplyCommitsNothing(cfg: Config, s: State, box: string)
    requires cfg.revision == Corrected
    requires Valid(cfg, s) && Settled(cfg, s)
    ensures var r := Step(cfg, s, SendReplyFailing(box));
            && r.state == s
            && (r.error.Some? <==> Offered(cfg, s, SendReplyFailing(box)) && Strip(box) != "")
            && (r.error.Some? ==> r.error == Some(ModelCallFailed))
  {
    var e := SendReplyFailing(box);
    if Offered(cfg, s, e) && Strip(box) == "" {
      InertClick(cfg, s, ClickOf(e));
      SettledIsIdle(cfg, s);
    }
  }

  /** Repaired, the next reply after a failed one adds one turn and its
      answer, as if the failure had not happened. */
  lemma CorrectedRetryAppendsOneTurn(cfg: Config, s: State, box: string, retry: string, reply: string, restart: string)
    requires cfg.revision == Corrected
    requires Valid(cfg, s) && Settled(cfg, s) && Offered(cfg, s, SendReplyFailing(box)) && Strip(retry) != ""
    requires s.mode == Some(Main) || !IsSessionCommand(Strip(retry))
    ensures var s1 := Step(cfg, s, SendReplyFailing(box)).state;
            var r := Step(cfg, s1, SendReply(retry, reply, restart));
            && r.error.None? && r.state.task.Some?
            && r.state.task.value.messages
               == s.task.value.messages + [Message(User, Strip(retry)), Message(Assistant, reply)]
  {
    CorrectedFailedReplyCommitsNothing(cfg, s, box);
    ReplyAppendsTurn(cfg, s, retry, reply, restart);
  }

  /** Repaired, the session command restarts the conversation with
      `start_session` and enters the main tutoring mode. */
  lemma StartCommandEntersMain(cfg: Config, s: State, box: string, reply: string, restart: string)
    requires cfg.revision == Corrected
    requires Valid(cfg, s) && Offered(cfg, s, SendReply(box, reply, restart))
    requires s.mode == Some(InitialFeedback) && IsSessionCommand(Strip(box))
    requires s.studentAttempt.Some?
    requires InitialFeedbackRequest(cfg.feedbackTemplate, s.task.value.problem, s.studentAttempt.value,
                                    s.task.value.correctSolution).Success?
    ensures var r := Step(cfg, s, SendReply(box, reply, restart));
            && r.error.None?
            && r.state.mode == Some(Main)
            && r.state.task.Some?
            && r.state.task.value.messages
               == StartSession(cfg.tutorPrompt, s.task.value.problem, s.studentAttempt.value,
                               s.task.value.correctSolution, restart)
  {
    assert Strip(box) != "";
    var t := s.task.value;
    var turn := t.messages + [Message(User, Strip(box)), Message(Assistant, reply)];
    var s1 := WithMessages(s, turn);
    WithMessagesValid(cfg, s, turn);
    WithMessagesKeeps(s, turn);
    var msgs := StartSession(cfg.tutorPrompt, t.problem, s.studentAttempt.value, t.correctSolution, restart);
    var s2 := WithMessages(s1, msgs).(mode := Some(Main));
    WithMessagesValid(cfg, s1, msgs);
    WithMessagesKeeps(s1, msgs);
    assert SendAndClear(cfg, s, box, reply, restart) == (s2, None);
    CallbackThenIdle(cfg, s, box, reply, restart);
  }

  /** The reply callback leaves the progress flags and counters alone. */
  lemma SendAndClearKeepsProgress(cfg: Config, s: State, box: string, reply: string, restart: string)
    requires Valid(cfg, s) && s.task.Some?
    ensures var s1 := SendAndClear(cfg, s, box, reply, restart).0;
            && s1.task.Some? && |s1.log.tasks| == |s.log.tasks|
            && s1 == s.(task := s1.task, log := s1.log, mode := s1.mode)
            && s1.task.value == s.task.value.(messages := s1.task.value.messages, taskLog := s1.task.value.taskLog)
            && (s.task.value.taskLog.Some? <==> s1.task.value.taskLog.Some?)
            && (s.task.value.taskLog.Some? ==>
                  s1.task.value.taskLog.value == s.task.value.taskLog.value.(messages := s1.task.value.taskLog.value.messages))
            && s1.log == s.log.(tasks := s1.log.tasks)
            && (forall i :: 0 <= i < |s.log.tasks| - 1 ==> s1.log.tasks[i] == s.log.tasks[i])
            && (!s.taskCompleted ==> s1.log == s.log)
  {
    if Strip(box) != "" {
      var t := s.task.value;
      var msgs := t.messages + [Message(User, Strip(box)), Message(Assistant, reply)];
      var s1 := WithMessages(s, msgs);
      WithMessagesKeeps(s, msgs);
      if && s.mode == Some(InitialFeedback) && IsSessionCommand(Strip(box)) && s.studentAttempt.Some?
         && cfg.revision == Corrected
         && InitialFeedbackRequest(cfg.feedbackTemplate, t.problem, s.studentAttempt.value, t.correctSolution).Success?
      {
        var start := StartSession(cfg.tutorPrompt, t.problem, s.studentAttempt.value, t.correctSolution, restart);
        WithMessagesKeeps(s1, start);
        if s.task.value.taskLog.Some? {
          var tl := s.task.value.taskLog.value;
          assert tl.(messages := msgs).(messages := start) == tl.(messages := start);
        }
        assert SendAndClear(cfg, s, box, reply, restart).0 == WithMessages(s1, start).(mode := Some(Main));
      } else {
        assert SendAndClear(cfg, s, box, reply, restart).0 == s1;
      }
    }
  }

  /** Submitting the evaluation (pages/1_FeedbackApp.py:299-313) stores the
      five scores in the task log, hides the form and moves to the follow-up,
      after the reply callback the button also triggers. */
  lemma RubricRecorded(cfg: Config, s: State, rubric: Rubric, box: string, reply: string, restart: string)
    requires Valid(cfg, s) && Settled(cfg, s)
    requires Offered(cfg, s, SubmitRubric(rubric, box, reply, restart))
    requires SendAndClear(cfg, s, box, reply, restart).1.None?
    ensures var r := Step(cfg, s, SubmitRubric(rubric, box, reply, restart));
            && r.error.None?
            && r.state.task.Some? && r.state.task.value.taskLog.Some?
            && r.state.task.value.taskLog.value.rubrics == Some(rubric)
            && s.task.Some? && s.task.value.taskLog.Some?
            && r.state.task.value.taskLog.value
               == s.task.value.taskLog.value.(rubrics := Some(rubric), messages := r.state.task.value.taskLog.value.messages)
            && r.state.mode == Some(Followup)
            && !r.state.task.value.showRubric
            && r.state.taskIndex == s.taskIndex
  {
    var s1 := SendAndClear(cfg, s, box, reply, restart).0;
    SendAndClearValid(cfg, s, box, reply, restart);
    SendAndClearKeepsProgress(cfg, s, box, reply, restart);
    assert LoadPhase(cfg, s1) == Success(s1);
    var s2 := RecordRubric(s1, rubric);
    RecordRubricValid(cfg, s1, rubric);
    assert Settled(cfg, s2);
    SettledIsIdle(cfg, s2);
  }

  /** A blank follow-up answer changes nothing (pages/1_FeedbackApp.py:323). */
  lemma BlankFollowupChangesNothing(cfg: Config, s: State, answer: string, evaluation: string, time: string)
    requires Valid(cfg, s) && Settled(cfg, s) && IsBlank(answer)
    ensures Step(cfg, s, SubmitFollowup(answer, evaluation, time)) == Outcome(s, None)
  {
    var e := SubmitFollowup(answer, evaluation, time);
    if Offered(cfg, s, e) {
      StripEmptyIffBlank(answer);
      InertClick(cfg, s, ClickOf(e));
      SettledIsIdle(cfg, s);
    }
  }

  /** The run of a follow-up answer with text records it and goes straight
      on to the feedback section. */
  lemma FollowupRun(cfg: Config, s: State, answer: string, evaluation: string, time: string)
    requires Valid(cfg, s) && Offered(cfg, s, SubmitFollowup(answer, evaluation, time))
    requires Strip(answer) != ""
    requires FollowupRequest(cfg.evaluationTemplate, s.task.value.similarProblem, answer,
                             s.task.value.similarSolution).Success?
    ensures Run(cfg, s, FollowupClick(answer, evaluation, time))
         == FeedbackPhase(cfg, RecordFollowup(s, answer, evaluation, time), FollowupClick(answer, evaluation, time))
  {
    var c := FollowupClick(answer, evaluation, time);
    assert LoadPhase(cfg, s) == Success(s);
    assert RubricPhase(cfg, s, c) == FollowupPhase(cfg, s, c);
  }

  /** The state a follow-up answer leaves when the page keeps the task: the
      answer recorded, the task log appended when the task was not yet
      completed, and on the last task the comments copied. */
  function FollowupOutcome(s: State, answer: string, evaluation: string, time: string): State
    requires s.task.Some?
  {
    var s1 := RecordFollowup(s, answer, evaluation, time);
    var s2 := if !s1.taskCompleted then AppendTask(s1) else s1;
    if s2.taskIndex < |TaskIndices| - 1 then s2 else s2.(additionalComments := Some(s2.commentsBox))
  }

  /** What that state holds: the answer, evaluation and time in the task
      log, the log as the session's last entry, earlier entries kept. */
  lemma FollowupOutcomeFacts(cfg: Config, s: State, answer: string, evaluation: string, time: string)
    requires Valid(cfg, s) && s.task.Some? && s.mode == Some(Followup)
    ensures var o := FollowupOutcome(s, answer, evaluation, time);
            && o.task.Some? && o.task.value.taskLog.Some?
            && o.task.value.showFeedback && o.mode == Some(Followup) && o.taskIndex == s.taskIndex
            && o.taskCompleted
            && |o.log.tasks| == |s.log.tasks| + (if s.taskCompleted then 0 else 1) > 0
            && (forall i :: 0 <= i < |s.log.tasks| - (if s.taskCompleted then 1 else 0) ==> o.log.tasks[i] == s.log.tasks[i])
            && var tl := o.task.value.taskLog.value;
               && tl.followupResponse == answer && tl.followupFeedback == evaluation && tl.timestamp == time
               && Last(o.log.tasks) == tl
  {
    RecordFollowupValid(cfg, s, answer, evaluation, time);
  }

  /** The step of a follow-up answer with text that does not reload a task:
      the answer is recorded, the task log appended when the task was not
      yet completed, and on the last task the comments are copied. */
  lemma FollowupStep(cfg: Config, s: State, answer: string, evaluation: string, time: string)
    requires Valid(cfg, s) && Offered(cfg, s, SubmitFollowup(answer, evaluation, time))
    requires Strip(answer) != ""
    requires FollowupRequest(cfg.evaluationTemplate, s.task.value.similarProblem, answer,
                             s.task.value.similarSolution).Success?
    requires cfg.revision == Corrected || s.taskIndex >= |TaskIndices| - 1
    ensures Step(cfg, s, SubmitFollowup(answer, evaluation, time))
         == Outcome(FollowupOutcome(s, answer, evaluation, time), None)
  {
    var e := SubmitFollowup(answer, evaluation, time);
    var c := ClickOf(e);
    var s1 := RecordFollowup(s, answer, evaluation, time);
    RecordFollowupValid(cfg, s, answer, evaluation, time);
    var s2 := if !s1.taskCompleted then AppendTask(s1) else s1;
    var out := if s2.taskIndex < |TaskIndices| - 1 then s2 else s2.(additionalComments := Some(s2.commentsBox));
    assert Run(cfg, s, c) == RunOut(out, false, None) by {
      FollowupRun(cfg, s, answer, evaluation, time);
      assert FeedbackPhase(cfg, s1, c) == RunOut(out, false, None);
    }
    assert Step(cfg, s, e) == Outcome(out, None) by {
      assert BeforeRun(cfg, s, e) == (s, None);
    }
  }

  /** A follow-up answer with text on a task that keeps its page (the last
      task, or any task once repaired) records the answer as typed, the
      evaluation and the time in the task log, shows the feedback, and
      appends the task log to the session the first time only
      (pages/1_FeedbackApp.py:323-342). */
  lemma FollowupRecorded(cfg: Config, s: State, answer: string, evaluation: string, time: string)
    requires Valid(cfg, s) && Offered(cfg, s, SubmitFollowup(answer, evaluation, time))
    requires Strip(answer) != ""
    requires FollowupRequest(cfg.evaluationTemplate, s.task.value.similarProblem, answer,
                             s.task.value.similarSolution).Success?
    requires cfg.revision == Corrected || s.taskIndex >= |TaskIndices| - 1
    ensures var r := Step(cfg, s, SubmitFollowup(answer, evaluation, time));
            && r.error.None?
            && r.state.task.Some? && r.state.task.value.taskLog.Some?
            && r.state.task.value.showFeedback && r.state.feedback == Some(evaluation)
            && r.state.mode == Some(Followup) && r.state.taskIndex == s.taskIndex
            && r.state.taskCompleted
            && |r.state.log.tasks| == |s.log.tasks| + (if s.taskCompleted then 0 else 1) > 0
            && (forall i :: 0 <= i < |s.log.tasks| - (if s.taskCompleted then 1 else 0) ==> r.state.log.tasks[i] == s.log.tasks[i])
            && var tl := r.state.task.value.taskLog.value;
               && tl.followupResponse == answer && tl.followupFeedback == evaluation && tl.timestamp == time
               && Last(r.state.log.tasks) == tl
  {
    FollowupStep(cfg, s, answer, evaluation, time);
    FollowupOutcomeFacts(cfg, s, answer, evaluation, time);
  }

  /** As written, a follow-up answer on a task before the last one ends
      with the task log appended and the same row loaded afresh. */
  lemma AsWrittenFollowupStep(cfg: Config, s: State, answer: string, evaluation: string, time: string)
    requires cfg.revision == AsWritten
    requires Valid(cfg, s) && Offered(cfg, s, SubmitFollowup(answer, evaluation, time))
    requires Strip(answer) != ""
    requires FollowupRequest(cfg.evaluationTemplate, s.task.value.similarProblem, answer,
                             s.task.value.similarSolution).Success?
    requires s.taskIndex < |TaskIndices| - 1
    ensures Step(cfg, s, SubmitFollowup(answer, evaluation, time))
         == Outcome(ClearTask(AppendTask(RecordFollowup(s, answer, evaluation, time)))
                      .(task := Some(Fresh(cfg.rows[RowPosition(s.taskIndex)])), mode := Some(AwaitingFirstAttempt)),
                    None)
  {
    var e := SubmitFollowup(answer, evaluation, time);
    var c := ClickOf(e);
    var s1 := RecordFollowup(s, answer, evaluation, time);
    RecordFollowupValid(cfg, s, answer, evaluation, time);
    assert !s.taskCompleted;
    var s3 := ClearTask(AppendTask(s1));
    assert Run(cfg, s, c) == RunOut(s3, true, None) by {
      FollowupRun(cfg, s, answer, evaluation, time);
    }
    var s4 := s3.(task := Some(Fresh(cfg.rows[RowPosition(s.taskIndex)])), mode := Some(AwaitingFirstAttempt));
    assert Run(cfg, s3, NoClick) == RunOut(s4, false, None) by {
      assert LoadPhase(cfg, s3) == Success(s4);
      assert RubricPhase(cfg, s4, NoClick) == FollowupPhase(cfg, s4, NoClick);
    }
    assert BeforeRun(cfg, s, e) == (s, None);
  }

  /** As written, a follow-up answer on a task before the last one appends
      the task log and then clears and reloads the same task, so the index
      does not move
      (pages/1_FeedbackApp.py:340-365). */
  lemma AsWrittenFollowupReloads(cfg: Config, s: State, answer: string, evaluation: string, time: string)
    requires cfg.revision == AsWritten
    requires Valid(cfg, s) && Offered(cfg, s, SubmitFollowup(answer, evaluation, time))
    requires Strip(answer) != ""
    requires FollowupRequest(cfg.evaluationTemplate, s.task.value.similarProblem, answer,
                             s.task.value.similarSolution).Success?
    requires s.taskIndex < |TaskIndices| - 1
    ensures var r := Step(cfg, s, SubmitFollowup(answer, evaluation, time));
            && r.error.None?
            && r.state.taskIndex == s.taskIndex
            && r.state.mode == Some(AwaitingFirstAttempt)
            && r.state.task == Some(Fresh(cfg.rows[RowPosition(s.taskIndex)]))
            && !r.state.taskCompleted
            && |r.state.log.tasks| == |s.log.tasks| + 1
            && Last(r.state.log.tasks).followupResponse == answer
  {
    AsWrittenFollowupStep(cfg, s, answer, evaluation, time);
    RecordFollowupValid(cfg, s, answer, evaluation, time);
  }

  /** As written, "Next Task" is never on the page in a reachable state. */
  lemma AsWrittenNextTaskNeverOffered(cfg: Config, s: State)
    requires cfg.revision == AsWritten && Valid(cfg, s)
    ensures !Offered(cfg, s, NextTask)
  {
  }

  /** As written, no interaction from a valid state moves the task index:
      "Next Task" is only on the page while the feedback of a non-final task
      is shown, and no such state survives a run. */
  lemma AsWrittenIndexFixed(cfg: Config, s: State, e: Event)
    requires cfg.revision == AsWritten && Valid(cfg, s)
    ensures Step(cfg, s, e).state.taskIndex == s.taskIndex
  {
    StepValid(cfg, s, e);
  }

  /** As written, a participant never gets past the first problem, whatever
      they do. */
  lemma {:induction false} AsWrittenStaysOnFirstTask(cfg: Config, s: State, es: seq<Event>)
    requires cfg.revision == AsWritten && Valid(cfg, s)
    ensures Trace(cfg, s, es).taskIndex == s.taskIndex
    decreases |es|
  {
    if es != [] {
      AsWrittenIndexFixed(cfg, s, es[0]);
      StepValid(cfg, s, es[0]);
      AsWrittenStaysOnFirstTask(cfg, Step(cfg, s, es[0]).state, es[1..]);
    }
  }

  /** Repaired, "Next Task" moves to the next problem and loads it fresh,
      with the finished task in the session exactly once. */
  lemma CorrectedNextTaskAdvances(cfg: Config, s: State)
    requires cfg.revision == Corrected
    requires Valid(cfg, s) && Offered(cfg, s, NextTask)
    requires RowExists(cfg, s.taskIndex + 1)
    ensures var r := Step(cfg, s, NextTask);
            && r.error.None?
            && r.state.taskIndex == s.taskIndex + 1
            && r.state.mode == Some(AwaitingFirstAttempt)
            && r.state.task == Some(Fresh(cfg.rows[RowPosition(s.taskIndex + 1)]))
            && r.state.studentAttempt.None?
            && !r.state.taskCompleted
            && |r.state.log.tasks| == r.state.taskIndex
            && Last(r.state.log.tasks) == s.task.value.taskLog.value
  {
    assert LoadPhase(cfg, s) == Success(s);
  }

  /** Repaired, the session holds one log per finished task, never more than
      the three tasks. */
  lemma CorrectedTasksBounded(cfg: Config, s: State)
    requires cfg.revision == Corrected && Valid(cfg, s)
    ensures |s.log.tasks| <= |TaskIndices|
    ensures |s.log.tasks| == s.taskIndex || (|s.log.tasks| == s.taskIndex + 1 && s.taskCompleted)
  {
  }

  /** As written, "Submit All & Save" hands the flattened record to the
      sheet writer, which fails with a `KeyError` on "timestamp"; the comments
      are stored in the session before the failure
      (pages/1_FeedbackApp.py:387-390). */
  lemma AsWrittenSaveFails(cfg: Config, s: State, comments: string)
    requires cfg.revision == AsWritten
    requires Valid(cfg, s) && Offered(cfg, s, SaveAll(comments))
    ensures var r := Step(cfg, s, SaveAll(comments));
            && r.error == Some(KeyError("timestamp"))
            && r.state.log.additionalComments == Some(comments)
            && r.state.sheet == s.sheet
  {
    var s1 := s.(commentsBox := comments);
    assert LoadPhase(cfg, s1) == Success(s1);
    var s2 := if !s1.taskCompleted then AppendTask(s1) else s1;
    var s3 := s2.(additionalComments := Some(comments));
    var log := s3.log.(additionalComments := Some(comments));
    FlattenedSaveFails(log, cfg.dumps);
  }

  /** Repaired, "Submit All & Save" appends one row holding the flattened
      session: the id, six columns per task, the comments. */
  lemma CorrectedSaveWritesRow(cfg: Config, s: State, comments: string)
    requires cfg.revision == Corrected
    requires Valid(cfg, s) && Offered(cfg, s, SaveAll(comments))
    ensures var r := Step(cfg, s, SaveAll(comments));
            && r.error.None?
            && r.state.log.additionalComments == Some(comments)
            && |r.state.log.tasks| == |TaskIndices|
            && r.state.sheet == s.sheet + [SessionRow(r.state.log, cfg.dumps)]
            && |Last(r.state.sheet)| == 2 + FieldsPerTask * |TaskIndices|
  {
    var s1 := s.(commentsBox := comments);
    assert LoadPhase(cfg, s1) == Success(s1);
    var r := Step(cfg, s, SaveAll(comments));
    SessionRowColumns(r.state.log, cfg.dumps);
  }

  /** A run that asks for a rerun leaves a state whose rerun does not ask
      again, so two reruns always settle the page. */
  lemma RerunChainEnds(cfg: Config, s: State)
    requires Run(cfg, s, NoClick).rerun && Run(cfg, s, NoClick).error.None?
    ensures !Run(cfg, Run(cfg, s, NoClick).state, NoClick).rerun
  {
  }
}
