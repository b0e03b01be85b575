/**
  The records the tutoring page keeps per task: the five-score rubric, the
  task log built when the first attempt is submitted, and the spreadsheet
  row `save_session_to_google_sheet` projects from a record
  (feedback_app/interactiveAgent.py:136-159).
 */
module Records {
  import opened Basics
  import opened Dict
  import opened Agent

  /** One radio choice of the evaluation form: 1 (worst) to 5 (best). */
  type Score = x: int | 1 <= x <= 5 witness 1

  /** The evaluation rubric (pages/1_FeedbackApp.py:293-306). */
  datatype Rubric = Rubric(diagnostic: Score, correctness: Score, notRevealing: Score,
                           applicable: Score, positive: Score)

  const RubricKeys: seq<string> := ["Diagnostic", "Correctness", "Not Revealing", "Applicable", "Positive"]

  /** The `rubric_scores` dict stored in the task log: exactly the five
      criteria, in this order, each scored 1 to 5. */
  function RubricScores(r: Rubric): (d: Dict<string, int>)
    ensures |d| == 5
    ensures forall i :: 0 <= i < 5 ==> d[i].0 == RubricKeys[i] && 1 <= d[i].1 <= 5
  {
    [ ("Diagnostic", r.diagnostic as int), ("Correctness", r.correctness as int),
      ("Not Revealing", r.notRevealing as int), ("Applicable", r.applicable as int),
      ("Positive", r.positive as int) ]
  }

  /** Reading a scores dict back into a rubric: succeeds only for the exact
      five-key shape with every score in range. */
  function RubricOfScores(d: Dict<string, int>): Option<Rubric> {
    if |d| == 5 && (forall i :: 0 <= i < 5 ==> d[i].0 == RubricKeys[i] && 1 <= d[i].1 <= 5) then
      Some(Rubric(d[0].1, d[1].1, d[2].1, d[3].1, d[4].1))
    else None
  }

  /** The stored scores determine the rubric they were built from. */
  lemma RubricScoresRoundTrip(r: Rubric)
    ensures RubricOfScores(RubricScores(r)) == Some(r)
  {
  }

  /** The task log dict of pages/1_FeedbackApp.py:189-200, once filled in.
      `rubrics == None` is the empty dict the log starts with. */
  datatype TaskLog = TaskLog(
    problem: string,
    studentAttempt: string,
    correctSolution: string,
    messages: seq<Message>,
    similarProblem: string,
    similarSolution: string,
    followupResponse: string,
    followupFeedback: string,
    rubrics: Option<Rubric>,
    timestamp: string)

  /** A value the application stores under a record key: text, a chat
      transcript, or a rubric dict (possibly the empty dict). */
  datatype Value = Text(text: string) | Transcript(msgs: seq<Message>) | Scores(rubric: Option<Rubric>)

  /** The task log as the dict it is in the application, keys in insertion order. */
  function TaskLogDict(t: TaskLog): Dict<string, Value> {
    [ ("problem", Text(t.problem)),
      ("student_attempt", Text(t.studentAttempt)),
      ("correct_solution", Text(t.correctSolution)),
      ("messages", Transcript(t.messages)),
      ("similar_problem", Text(t.similarProblem)),
      ("similar_solution", Text(t.similarSolution)),
      ("followup_response", Text(t.followupResponse)),
      ("followup_feedback", Text(t.followupFeedback)),
      ("rubrics", Scores(t.rubrics)),
      ("timestamp", Text(t.timestamp)) ]
  }

  /** The keys the row builder reads with `log_data[key]`, in evaluation order;
      the row's tenth column reads "rubrics" with a default. */
  const RowKeys: seq<string> := ["timestamp", "problem", "student_attempt", "correct_solution", "messages",
                                 "similar_problem", "similar_solution", "followup_response", "followup_feedback"]

  /** The index of the one JSON-serialised column among `RowKeys`. */
  const MessagesColumn: nat := 4

  /** A plain column holds the stored text itself. The application only ever
      stores text under the plain keys; any other value is written as JSON. */
  function PlainCell(v: Value, dumps: Value -> string): string {
    if v.Text? then v.text else dumps(v)
  }

  /** The cell for value `v` in column `column`: only the messages column is
      serialised whatever it holds. */
  function Cell(v: Value, column: nat, dumps: Value -> string): string {
    if column == MessagesColumn then dumps(v) else PlainCell(v, dumps)
  }

  /** The cells for `keys`, or the first key the record lacks (a `KeyError`).
      `from` is the position of `keys[0]` among the row's columns. */
  function Cells(d: Dict<string, Value>, keys: seq<string>, from: nat, dumps: Value -> string)
    : (r: Result<seq<string>, string>)
    ensures r.Success? <==> forall i :: 0 <= i < |keys| ==> HasKey(d, keys[i])
    ensures r.Success? ==> |r.value| == |keys|
    ensures r.Success? ==> forall i :: 0 <= i < |keys| ==>
              r.value[i] == Cell(Get(d, keys[i]).value, from + i, dumps)
    ensures r.Failure? ==> exists i :: 0 <= i < |keys| && keys[i] == r.error && !HasKey(d, r.error)
                                        && forall j :: 0 <= j < i ==> HasKey(d, keys[j])
  {
    if keys == [] then Success([])
    else match Get(d, keys[0])
      case None => Failure(keys[0])
      case Some(v) =>
        var cell := Cell(v, from, dumps);
        match Cells(d, keys[1..], from + 1, dumps)
        case Failure(k) =>
          assert forall i :: 0 <= i < |keys[1..]| ==> keys[1..][i] == keys[i + 1];
          Failure(k)
        case Success(rest) =>
          assert forall i :: 0 <= i < |keys[1..]| ==> keys[1..][i] == keys[i + 1];
          Success([cell] + rest)
  }

  /** The row `save_session_to_google_sheet` appends: ten cells built from
      the record's keys, failing with the first missing key. `dumps` stands
      for `json.dumps`. */
  function SheetRow(d: Dict<string, Value>, dumps: Value -> string): (r: Result<seq<string>, string>)
    ensures r.Success? <==> forall i :: 0 <= i < |RowKeys| ==> HasKey(d, RowKeys[i])
    ensures r.Success? ==> |r.value| == 10
    ensures r.Success? ==> forall i :: 0 <= i < |RowKeys| ==>
              r.value[i] == Cell(Get(d, RowKeys[i]).value, i, dumps)
    ensures r.Success? ==> r.value[9] == dumps(Get(d, "rubrics").GetOr(Scores(None)))
  {
    match Cells(d, RowKeys, 0, dumps)
    case Failure(k) => Failure(k)
    case Success(cells) => Success(cells + [dumps(Get(d, "rubrics").GetOr(Scores(None)))])
  }

  /** The ten keys of a task log are pairwise different. */
  lemma TaskLogKeysDistinct(t: TaskLog)
    ensures DistinctKeys(TaskLogDict(t))
  {
  }

  /** The fields of the first five columns are found under their keys. */
  lemma TaskLogFrontLookups(t: TaskLog)
    ensures var d := TaskLogDict(t);
            && Get(d, "timestamp") == Some(Text(t.timestamp))
            && Get(d, "problem") == Some(Text(t.problem))
            && Get(d, "student_attempt") == Some(Text(t.studentAttempt))
            && Get(d, "correct_solution") == Some(Text(t.correctSolution))
            && Get(d, "messages") == Some(Transcript(t.messages))
  {
    var d := TaskLogDict(t);
    TaskLogKeysDistinct(t);
    GetEntry(d, 0);
    GetEntry(d, 1);
    GetEntry(d, 2);
    GetEntry(d, 3);
    GetEntry(d, 9);
  }

  /** The fields of the last five columns are found under their keys. */
  lemma TaskLogBackLookups(t: TaskLog)
    ensures var d := TaskLogDict(t);
            && Get(d, "similar_problem") == Some(Text(t.similarProblem))
            && Get(d, "similar_solution") == Some(Text(t.similarSolution))
            && Get(d, "followup_response") == Some(Text(t.followupResponse))
            && Get(d, "followup_feedback") == Some(Text(t.followupFeedback))
            && Get(d, "rubrics") == Some(Scores(t.rubrics))
  {
    var d := TaskLogDict(t);
    TaskLogKeysDistinct(t);
    GetEntry(d, 4);
    GetEntry(d, 5);
    GetEntry(d, 6);
    GetEntry(d, 7);
    GetEntry(d, 8);
  }

  /** The row builder finds every key it reads in a task log dict. */
  lemma TaskLogRowFound(t: TaskLog, dumps: Value -> string)
    ensures SheetRow(TaskLogDict(t), dumps).Success?
  {
    var d := TaskLogDict(t);
    TaskLogFrontLookups(t);
    TaskLogBackLookups(t);
    forall i | 0 <= i < |RowKeys| ensures HasKey(d, RowKeys[i]) {
      assert Get(d, RowKeys[i]).Some?;
    }
  }

  /** Column `i` of a row holds the value found under the `i`-th row key. */
  lemma RowCell(d: Dict<string, Value>, dumps: Value -> string, i: nat, k: string, v: Value)
    requires SheetRow(d, dumps).Success? && i < |RowKeys| && RowKeys[i] == k && Get(d, k) == Some(v)
    ensures SheetRow(d, dumps).value[i] == Cell(v, i, dumps)
  {
  }

  /** The first five columns of a task log's row. */
  lemma TaskLogRowFront(t: TaskLog, dumps: Value -> string)
    requires SheetRow(TaskLogDict(t), dumps).Success?
    ensures var row := SheetRow(TaskLogDict(t), dumps).value;
            && row[0] == t.timestamp && row[1] == t.problem && row[2] == t.studentAttempt
            && row[3] == t.correctSolution && row[4] == dumps(Transcript(t.messages))
  {
    var d := TaskLogDict(t);
    TaskLogFrontLookups(t);
    RowCell(d, dumps, 0, "timestamp", Text(t.timestamp));
    RowCell(d, dumps, 1, "problem", Text(t.problem));
    RowCell(d, dumps, 2, "student_attempt", Text(t.studentAttempt));
    RowCell(d, dumps, 3, "correct_solution", Text(t.correctSolution));
    RowCell(d, dumps, 4, "messages", Transcript(t.messages));
  }

  /** The last five columns of a task log's row. */
  lemma TaskLogRowBack(t: TaskLog, dumps: Value -> string)
    requires SheetRow(TaskLogDict(t), dumps).Success?
    ensures var row := SheetRow(TaskLogDict(t), dumps).value;
            && row[5] == t.similarProblem && row[6] == t.similarSolution && row[7] == t.followupResponse
            && row[8] == t.followupFeedback && row[9] == dumps(Scores(t.rubrics))
  {
    var d := TaskLogDict(t);
    TaskLogBackLookups(t);
    RowCell(d, dumps, 5, "similar_problem", Text(t.similarProblem));
    RowCell(d, dumps, 6, "similar_solution", Text(t.similarSolution));
    RowCell(d, dumps, 7, "followup_response", Text(t.followupResponse));
    RowCell(d, dumps, 8, "followup_feedback", Text(t.followupFeedback));
  }

  /** Applied to a task log, the row builder yields the ten fields in the
      sheet's column order, with the transcript and the rubric as JSON. */
  lemma TaskLogRow(t: TaskLog, dumps: Value -> string)
    ensures var r := SheetRow(TaskLogDict(t), dumps);
            && r.Success? && |r.value| == 10
            && r.value[0] == t.timestamp
            && r.value[1] == t.problem
            && r.value[2] == t.studentAttempt
            && r.value[3] == t.correctSolution
            && r.value[4] == dumps(Transcript(t.messages))
            && r.value[5] == t.similarProblem
            && r.value[6] == t.similarSolution
            && r.value[7] == t.followupResponse
            && r.value[8] == t.followupFeedback
            && r.value[9] == dumps(Scores(t.rubrics))
  {
    TaskLogRowFound(t, dumps);
    TaskLogRowFront(t, dumps);
    TaskLogRowBack(t, dumps);
  }

  /** A record without a "rubrics" entry gets the JSON of the empty dict in
      the last column. */
  lemma RubricsDefaultToEmpty(d: Dict<string, Value>, dumps: Value -> string)
    requires forall i :: 0 <= i < |RowKeys| ==> HasKey(d, RowKeys[i])
    requires !HasKey(d, "rubrics")
    ensures SheetRow(d, dumps).Success? && SheetRow(d, dumps).value[9] == dumps(Scores(None))
  {
  }
}
