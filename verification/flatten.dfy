/**
  `flatten_session_log` (pages/1_FeedbackApp.py:371-385): the nested
  session log (a student id, the list of task logs, optional closing
  comments) becomes one flat record whose keys carry a `task_<n>_` prefix.
 */
module Flatten {
  import opened Basics
  import opened Text
  import opened Dict
  import opened Records

  /** `session_log_data` (pages/1_FeedbackApp.py:34-37, 341, 388). */
  datatype SessionLog = SessionLog(studentId: string, tasks: seq<TaskLog>, additionalComments: Option<string>)

  /** The six per-task columns, in the order the loop assigns them. */
  const TaskFields: seq<string> := ["problem", "attempt", "rubrics", "followup_problem", "followup_response", "followup_feedback"]

  const FieldsPerTask: nat := 6

  /** The flat key of field `f` of the task at 0-based position `i`. */
  function TaskKey(i: nat, f: string): string {
    "task_" + Decimal(i + 1) + "_" + f
  }

  /** The value the loop stores for field number `m` of task `t`. */
  function TaskField(t: TaskLog, m: nat, dumps: Value -> string): string
    requires m < FieldsPerTask
  {
    [t.problem, t.studentAttempt, dumps(Scores(t.rubrics)), t.similarProblem, t.followupResponse, t.followupFeedback][m]
  }

  /** The six entries written for task `i`, as (key, value) pairs. */
  function TaskEntries(i: nat, t: TaskLog, dumps: Value -> string): (r: Dict<string, string>)
    ensures |r| == FieldsPerTask
  {
    seq(FieldsPerTask, m requires 0 <= m < FieldsPerTask => (TaskKey(i, TaskFields[m]), TaskField(t, m, dumps)))
  }

  /** Entry `m` of a task's block is its `m`-th field under its key. */
  lemma TaskEntryAt(i: nat, t: TaskLog, m: nat, dumps: Value -> string)
    requires m < FieldsPerTask
    ensures TaskEntries(i, t, dumps)[m] == (TaskKey(i, TaskFields[m]), TaskField(t, m, dumps))
  {
  }

  /** Successive `d[k] = v` assignments. */
  function PutAll(d: Dict<string, string>, es: Dict<string, string>): Dict<string, string>
    decreases |es|
  {
    if es == [] then d else PutAll(Put(d, es[0].0, es[0].1), es[1..])
  }

  /** The loop over `enumerate(log["tasks"])`, from task `i` on. */
  function PutTasks(d: Dict<string, string>, tasks: seq<TaskLog>, i: nat, dumps: Value -> string): Dict<string, string>
    decreases |tasks| - i
  {
    if i >= |tasks| then d else PutTasks(PutAll(d, TaskEntries(i, tasks[i], dumps)), tasks, i + 1, dumps)
  }

  /** `flatten_session_log(log)`. */
  function FlattenSession(log: SessionLog, dumps: Value -> string): Dict<string, string> {
    var withTasks := PutTasks([("student_id", log.studentId)], log.tasks, 0, dumps);
    Put(withTasks, "additional_comments", log.additionalComments.GetOr(""))
  }

  // ---------------------------------------------------------------------
  // Reference layout
  // ---------------------------------------------------------------------

  /** The entries of tasks `i`, `i+1`, ... one block of six after another. */
  function Blocks(tasks: seq<TaskLog>, i: nat, dumps: Value -> string): (r: Dict<string, string>)
    ensures |r| == if i <= |tasks| then FieldsPerTask * (|tasks| - i) else 0
    decreases |tasks| - i
  {
    if i >= |tasks| then [] else TaskEntries(i, tasks[i], dumps) + Blocks(tasks, i + 1, dumps)
  }

  /** The flat record laid out directly: the id, six entries per task, the comments. */
  function Layout(log: SessionLog, dumps: Value -> string): Dict<string, string> {
    [("student_id", log.studentId)] + Blocks(log.tasks, 0, dumps)
      + [("additional_comments", log.additionalComments.GetOr(""))]
  }

  /** Entry `m` of the `k`-th block after task `i` is entry `m` of task `i + k`. */
  lemma {:induction false} BlockEntry(tasks: seq<TaskLog>, i: nat, k: nat, m: nat, dumps: Value -> string)
    requires i + k < |tasks| && m < FieldsPerTask
    ensures FieldsPerTask * k + m < |Blocks(tasks, i, dumps)|
    ensures Blocks(tasks, i, dumps)[FieldsPerTask * k + m] == TaskEntries(i + k, tasks[i + k], dumps)[m]
    decreases k
  {
    var head, rest := TaskEntries(i, tasks[i], dumps), Blocks(tasks, i + 1, dumps);
    var p := FieldsPerTask * k + m;
    assert Blocks(tasks, i, dumps) == head + rest;
    if k == 0 {
      assert p == m;
      assert (head + rest)[m] == head[m];
    } else {
      var j := FieldsPerTask * (k - 1) + m;
      BlockEntry(tasks, i + 1, k - 1, m, dumps);
      assert i + 1 + (k - 1) == i + k;
      assert p == |head| + j;
      assert (head + rest)[|head| + j] == rest[j];
    }
  }

  /** In `a + "_" + f` with `a` all digits, the first `|a|` characters are
      digits and the next one is the underscore. */
  lemma UnderscoreAfterDigits(a: string, f: string)
    requires forall i :: 0 <= i < |a| ==> IsDigit(a[i])
    ensures var s := a + "_" + f; s[|a|] == '_' && forall i :: 0 <= i < |a| ==> IsDigit(s[i])
  {
  }

  /** A run of digits is delimited by the first underscore after it. */
  lemma DigitsBeforeUnderscore(a: string, b: string, f: string, g: string)
    requires forall i :: 0 <= i < |a| ==> IsDigit(a[i])
    requires forall i :: 0 <= i < |b| ==> IsDigit(b[i])
    requires a + "_" + f == b + "_" + g
    ensures a == b && f == g
  {
    var s := a + "_" + f;
    UnderscoreAfterDigits(a, f);
    UnderscoreAfterDigits(b, g);
    assert |a| == |b|;
    assert a == s[..|a|] == b;
    assert f == s[|a| + 1..] == g;
  }

  /** Different tasks or different fields give different keys. */
  lemma TaskKeyInjective(i: nat, j: nat, f: string, g: string)
    requires TaskKey(i, f) == TaskKey(j, g)
    ensures i == j && f == g
  {
    var a, b := Decimal(i + 1), Decimal(j + 1);
    var s, t := a + "_" + f, b + "_" + g;
    assert TaskKey(i, f) == "task_" + s && TaskKey(j, g) == "task_" + t;
    assert s == TaskKey(i, f)[5..] == TaskKey(j, g)[5..] == t;
    DigitsBeforeUnderscore(a, b, f, g);
    DecimalInjective(i + 1, j + 1);
  }

  /** The six field names are pairwise different. */
  lemma TaskFieldsDistinct(m: nat, n: nat)
    requires m < FieldsPerTask && n < FieldsPerTask && TaskFields[m] == TaskFields[n]
    ensures m == n
  {
  }

  /** A task key starts "ta"; the other keys the application uses do not. */
  lemma TaskKeyPrefix(i: nat, f: string)
    ensures |TaskKey(i, f)| >= 2 && TaskKey(i, f)[0] == 't' && TaskKey(i, f)[1] == 'a'
    ensures TaskKey(i, f) != "student_id" && TaskKey(i, f) != "additional_comments" && TaskKey(i, f) != "timestamp"
  {
    var k := TaskKey(i, f);
    assert k[0] == 't' && k[1] == 'a';
    assert "timestamp"[1] == 'i';
  }

  /** The key at position `p` of the layout. */
  lemma LayoutKey(log: SessionLog, p: nat, dumps: Value -> string)
    requires 0 < p < 1 + FieldsPerTask * |log.tasks|
    ensures (p - 1) / FieldsPerTask < |log.tasks|
    ensures Layout(log, dumps)[p] == (TaskKey((p - 1) / FieldsPerTask, TaskFields[(p - 1) % FieldsPerTask]),
                                      TaskField(log.tasks[(p - 1) / FieldsPerTask], (p - 1) % FieldsPerTask, dumps))
  {
    var k, m := (p - 1) / FieldsPerTask, (p - 1) % FieldsPerTask;
    assert p - 1 == FieldsPerTask * k + m;
    BlockEntry(log.tasks, 0, k, m, dumps);
    TaskEntryAt(k, log.tasks[k], m, dumps);
    assert Layout(log, dumps)[p] == Blocks(log.tasks, 0, dumps)[p - 1];
  }

  /** No key occurs twice in the layout. */
  lemma LayoutDistinct(log: SessionLog, dumps: Value -> string)
    ensures DistinctKeys(Layout(log, dumps))
  {
    var d := Layout(log, dumps);
    var n := FieldsPerTask * |log.tasks|;
    assert |d| == n + 2;
    forall p, q | 0 <= p < q < |d| ensures d[p].0 != d[q].0 {
      if 0 < q < n + 1 {
        LayoutKey(log, q, dumps);
        TaskKeyPrefix((q - 1) / FieldsPerTask, TaskFields[(q - 1) % FieldsPerTask]);
      }
      if 0 < p < n + 1 {
        LayoutKey(log, p, dumps);
        TaskKeyPrefix((p - 1) / FieldsPerTask, TaskFields[(p - 1) % FieldsPerTask]);
      }
      if 0 < p && q < n + 1 && d[p].0 == d[q].0 {
        TaskKeyInjective((p - 1) / FieldsPerTask, (q - 1) / FieldsPerTask,
                         TaskFields[(p - 1) % FieldsPerTask], TaskFields[(q - 1) % FieldsPerTask]);
        TaskFieldsDistinct((p - 1) % FieldsPerTask, (q - 1) % FieldsPerTask);
        assert false;
      }
    }
  }

  lemma DistinctPrefix(d: Dict<string, string>, e: Dict<string, string>)
    requires DistinctKeys(d + e)
    ensures DistinctKeys(d)
  {
    assert forall i :: 0 <= i < |d| ==> (d + e)[i] == d[i];
  }

  /** Assignments to fresh keys append, in order. */
  lemma {:induction false} PutAllFresh(d: Dict<string, string>, es: Dict<string, string>)
    requires DistinctKeys(d + es)
    ensures PutAll(d, es) == d + es
    decreases |es|
  {
    if es != [] {
      var e := es[0];
      assert !HasKey(d, e.0) by {
        forall i | 0 <= i < |d| ensures d[i].0 != e.0 {
          assert (d + es)[i] == d[i] && (d + es)[|d|] == e;
        }
      }
      assert (d + [e]) + es[1..] == d + es;
      PutAllFresh(d + [e], es[1..]);
    }
  }

  /** The task loop appends the blocks when their keys are fresh. */
  lemma {:induction false} PutTasksFresh(d: Dict<string, string>, tasks: seq<TaskLog>, i: nat, dumps: Value -> string)
    requires DistinctKeys(d + Blocks(tasks, i, dumps))
    ensures PutTasks(d, tasks, i, dumps) == d + Blocks(tasks, i, dumps)
    decreases |tasks| - i
  {
    if i < |tasks| {
      var es := TaskEntries(i, tasks[i], dumps);
      var rest := Blocks(tasks, i + 1, dumps);
      assert d + Blocks(tasks, i, dumps) == (d + es) + rest;
      DistinctPrefix(d + es, rest);
      PutAllFresh(d, es);
      PutTasksFresh(d + es, tasks, i + 1, dumps);
    }
  }

  /** The flattening loop writes exactly the reference layout: every
      assignment adds a new key. */
  lemma FlattenIsLayout(log: SessionLog, dumps: Value -> string)
    ensures FlattenSession(log, dumps) == Layout(log, dumps)
  {
    var head: Dict<string, string> := [("student_id", log.studentId)];
    var blocks := Blocks(log.tasks, 0, dumps);
    var tail := [("additional_comments", log.additionalComments.GetOr(""))];
    LayoutDistinct(log, dumps);
    assert Layout(log, dumps) == (head + blocks) + tail;
    DistinctPrefix(head + blocks, tail);
    PutTasksFresh(head, log.tasks, 0, dumps);
    assert !HasKey(head + blocks, "additional_comments") by {
      forall p | 0 <= p < |head + blocks| ensures (head + blocks)[p].0 != "additional_comments" {
        assert (head + blocks)[p] == Layout(log, dumps)[p];
        assert Layout(log, dumps)[|head + blocks|].0 == "additional_comments";
      }
    }
  }

  /** The flat record has the id, six entries per task and the comments. */
  lemma FlattenSize(log: SessionLog, dumps: Value -> string)
    ensures |FlattenSession(log, dumps)| == 2 + FieldsPerTask * |log.tasks|
    ensures DistinctKeys(FlattenSession(log, dumps))
  {
    FlattenIsLayout(log, dumps);
    LayoutDistinct(log, dumps);
  }

  /** Every stored value can be found under its key: the id, each field of
      each task (the rubric as its JSON text, so a task without a rubric
      reads as the empty dict's JSON), and the comments, "" when absent. */
  lemma FlattenLookup(log: SessionLog, dumps: Value -> string)
    ensures Get(FlattenSession(log, dumps), "student_id") == Some(log.studentId)
    ensures Get(FlattenSession(log, dumps), "additional_comments") == Some(log.additionalComments.GetOr(""))
    ensures forall i, m :: 0 <= i < |log.tasks| && 0 <= m < FieldsPerTask ==>
              Get(FlattenSession(log, dumps), TaskKey(i, TaskFields[m])) == Some(TaskField(log.tasks[i], m, dumps))
  {
    var d := FlattenSession(log, dumps);
    FlattenIsLayout(log, dumps);
    LayoutDistinct(log, dumps);
    var n := FieldsPerTask * |log.tasks|;
    GetEntry(d, 0);
    GetEntry(d, n + 1);
    forall i, m | 0 <= i < |log.tasks| && 0 <= m < FieldsPerTask
      ensures Get(d, TaskKey(i, TaskFields[m])) == Some(TaskField(log.tasks[i], m, dumps))
    {
      var p := 1 + FieldsPerTask * i + m;
      assert (p - 1) / FieldsPerTask == i && (p - 1) % FieldsPerTask == m;
      LayoutKey(log, p, dumps);
      GetEntry(d, p);
    }
  }

  /** The flat record holds exactly the id, the comments and the six keys of
      each recorded task. */
  lemma FlattenKeys(log: SessionLog, dumps: Value -> string, k: string)
    ensures HasKey(FlattenSession(log, dumps), k)
        <==> k == "student_id" || k == "additional_comments"
             || exists i, m :: 0 <= i < |log.tasks| && 0 <= m < FieldsPerTask && k == TaskKey(i, TaskFields[m])
  {
    var d := FlattenSession(log, dumps);
    FlattenLookup(log, dumps);
    if HasKey(d, k) {
      FlattenIsLayout(log, dumps);
      var p :| 0 <= p < |d| && d[p].0 == k;
      if 0 < p < |d| - 1 {
        LayoutKey(log, p, dumps);
        var i, m := (p - 1) / FieldsPerTask, (p - 1) % FieldsPerTask;
        assert k == TaskKey(i, TaskFields[m]);
      } else if p == 0 {
        assert d[0] == Layout(log, dumps)[0];
      } else {
        assert d[|d| - 1] == Layout(log, dumps)[|d| - 1];
      }
    } else {
      assert k != "student_id" && k != "additional_comments";
      forall i, m | 0 <= i < |log.tasks| && 0 <= m < FieldsPerTask ensures k != TaskKey(i, TaskFields[m]) {
        assert Get(d, TaskKey(i, TaskFields[m])) == Some(TaskField(log.tasks[i], m, dumps));
      }
    }
  }

  /** A task without a submitted evaluation is flattened with the JSON of
      the empty dict in its rubrics column. */
  lemma UnratedTaskRubrics(log: SessionLog, dumps: Value -> string, i: nat)
    requires i < |log.tasks| && log.tasks[i].rubrics.None?
    ensures Get(FlattenSession(log, dumps), TaskKey(i, "rubrics")) == Some(dumps(Scores(None)))
  {
    FlattenLookup(log, dumps);
    assert TaskFields[2] == "rubrics";
  }

  // ---------------------------------------------------------------------
  // Saving the flat record
  // ---------------------------------------------------------------------

  /** The flat record as the dict handed to the sheet writer. */
  function AsRecord(d: Dict<string, string>): (r: Dict<string, Value>)
    ensures |r| == |d|
    ensures forall i :: 0 <= i < |d| ==> r[i] == (d[i].0, Text(d[i].1))
  {
    seq(|d|, i requires 0 <= i < |d| => (d[i].0, Text(d[i].1)))
  }

  /** The sheet writer, applied to a flattened session, fails on its very
      first column: the flat record has no "timestamp" key. */
  lemma FlattenedSaveFails(log: SessionLog, dumps: Value -> string)
    ensures SheetRow(AsRecord(FlattenSession(log, dumps)), dumps) == Failure("timestamp")
  {
    var d := FlattenSession(log, dumps);
    var r := AsRecord(d);
    assert !HasKey(r, "timestamp") by {
      FlattenIsLayout(log, dumps);
      forall p | 0 <= p < |r| ensures r[p].0 != "timestamp" {
        if 0 < p < |d| - 1 {
          LayoutKey(log, p, dumps);
          TaskKeyPrefix((p - 1) / FieldsPerTask, TaskFields[(p - 1) % FieldsPerTask]);
        }
      }
    }
    assert RowKeys[0] == "timestamp";
  }

  /** The row a save of the flat record writes: its values in key order. */
  function SessionRow(log: SessionLog, dumps: Value -> string): seq<string> {
    Values(FlattenSession(log, dumps))
  }

  /** The session row holds the id first, the comments last, and field `m`
      of task `i` at column `1 + 6 * i + m`. */
  lemma SessionRowColumns(log: SessionLog, dumps: Value -> string)
    ensures |SessionRow(log, dumps)| == 2 + FieldsPerTask * |log.tasks|
    ensures SessionRow(log, dumps)[0] == log.studentId
    ensures SessionRow(log, dumps)[|SessionRow(log, dumps)| - 1] == log.additionalComments.GetOr("")
    ensures forall i, m :: 0 <= i < |log.tasks| && 0 <= m < FieldsPerTask ==>
              SessionRow(log, dumps)[1 + FieldsPerTask * i + m] == TaskField(log.tasks[i], m, dumps)
  {
    FlattenIsLayout(log, dumps);
    var d := Layout(log, dumps);
    forall i, m | 0 <= i < |log.tasks| && 0 <= m < FieldsPerTask
      ensures SessionRow(log, dumps)[1 + FieldsPerTask * i + m] == TaskField(log.tasks[i], m, dumps)
    {
      var p := 1 + FieldsPerTask * i + m;
      assert (p - 1) / FieldsPerTask == i && (p - 1) % FieldsPerTask == m;
      LayoutKey(log, p, dumps);
    }
  }
}
