/**
  The pure parts of the tutoring agent (feedback_app/interactiveAgent.py):
  the chat messages sent to and kept from the language model, the prompt
  templates filled with `str.format`, and the plain-text session log. The
  model's completions themselves are not computed here; they arrive as
  strings.
 */
module Agent {
  import opened Basics
  import opened Text

  datatype Role = System | User | Assistant

  /** One chat message, `{"role": ..., "content": ...}`. */
  datatype Message = Message(role: Role, content: string)

  // ---------------------------------------------------------------------
  // Joining strings
  // ---------------------------------------------------------------------

  /** `"".join(parts)`. */
  function Concat(parts: seq<string>): string {
    if parts == [] then "" else parts[0] + Concat(parts[1..])
  }

  /** Where part `i` starts in `Concat(parts)`. */
  function Offset(parts: seq<string>, i: nat): nat
    requires i <= |parts|
  {
    if i == 0 then 0 else |parts[0]| + Offset(parts[1..], i - 1)
  }

  /** Consecutive parts are laid end to end. */
  lemma {:induction false} OffsetStep(parts: seq<string>, i: nat)
    requires i < |parts|
    ensures Offset(parts, i + 1) == Offset(parts, i) + |parts[i]|
  {
    if i > 0 {
      OffsetStep(parts[1..], i - 1);
    }
  }

  /** Part `i` occurs verbatim at its offset in the joined string. */
  lemma {:induction false} ConcatPart(parts: seq<string>, i: nat)
    requires i < |parts|
    ensures Offset(parts, i) + |parts[i]| <= |Concat(parts)|
    ensures Concat(parts)[Offset(parts, i)..Offset(parts, i) + |parts[i]|] == parts[i]
  {
    var c := Concat(parts);
    assert c == parts[0] + Concat(parts[1..]);
    if i == 0 {
      assert c[..|parts[0]|] == parts[0];
    } else {
      ConcatPart(parts[1..], i - 1);
      var k := Offset(parts[1..], i - 1);
      assert c[|parts[0]| + k..|parts[0]| + k + |parts[i]|] == Concat(parts[1..])[k..k + |parts[i]|];
    }
  }

  /** Part `i` occurs verbatim at its offset, directly after part `i - 1`. */
  lemma PartAfterPart(parts: seq<string>, i: nat)
    requires 0 < i < |parts|
    ensures |parts[i - 1]| <= Offset(parts, i)
    ensures Offset(parts, i) + |parts[i]| <= |Concat(parts)|
    ensures Concat(parts)[Offset(parts, i) - |parts[i - 1]|..Offset(parts, i)] == parts[i - 1]
    ensures Concat(parts)[Offset(parts, i)..Offset(parts, i) + |parts[i]|] == parts[i]
  {
    OffsetStep(parts, i - 1);
    ConcatPart(parts, i - 1);
    ConcatPart(parts, i);
  }

  /** A later part starts after an earlier part ends. */
  lemma {:induction false} OffsetOrder(parts: seq<string>, i: nat, j: nat)
    requires i < j < |parts|
    ensures Offset(parts, i) + |parts[i]| <= Offset(parts, j)
  {
    OffsetStep(parts, j - 1);
    if i < j - 1 {
      OffsetOrder(parts, i, j - 1);
    }
  }

  // ---------------------------------------------------------------------
  // Prompt templates
  // ---------------------------------------------------------------------

  /** A format string after parsing: literal text and `{name}` fields. */
  datatype Piece = Lit(text: string) | Field(name: string)

  type Template = seq<Piece>

  /** Every field of `t` has a binding in `args`. */
  predicate Covers(t: Template, args: map<string, string>) {
    forall i :: 0 <= i < |t| && t[i].Field? ==> t[i].name in args
  }

  /** The result of `t.format(**args)` when it succeeds. */
  function Fill(t: Template, args: map<string, string>): string
    requires Covers(t, args)
  {
    if t == [] then ""
    else (match t[0] case Lit(s) => s case Field(n) => args[n]) + Fill(t[1..], args)
  }

  /** The first field of `t` that `args` does not bind. */
  function FirstUnbound(t: Template, args: map<string, string>): (n: string)
    requires !Covers(t, args)
    ensures exists i :: 0 <= i < |t| && t[i] == Field(n) && n !in args
  {
    if t[0].Field? && t[0].name !in args then t[0].name
    else
      var n := FirstUnbound(t[1..], args);
      assert exists i :: 0 <= i < |t| && t[i] == Field(n) && n !in args by {
        var i :| 0 <= i < |t[1..]| && t[1..][i] == Field(n) && n !in args;
        assert t[i + 1] == Field(n);
      }
      n
  }

  /** `t.format(**args)`: fails with the missing key exactly when some field
      is unbound; unused arguments are ignored. */
  function Format(t: Template, args: map<string, string>): (r: Result<string, string>)
    ensures r.Success? <==> Covers(t, args)
    ensures r.Failure? ==> r.error !in args
  {
    if Covers(t, args) then Success(Fill(t, args)) else Failure(FirstUnbound(t, args))
  }

  /** Two argument maps that agree on the fields of `t` fill it identically:
      an argument the template does not mention cannot reach the prompt. */
  lemma {:induction false} FillUsesOnlyFields(t: Template, a: map<string, string>, b: map<string, string>)
    requires Covers(t, a) && Covers(t, b)
    requires forall i :: 0 <= i < |t| && t[i].Field? ==> a[t[i].name] == b[t[i].name]
    ensures Fill(t, a) == Fill(t, b)
  {
    if t != [] {
      assert forall i :: 0 <= i < |t[1..]| ==> t[1..][i] == t[i + 1];
      FillUsesOnlyFields(t[1..], a, b);
    }
  }

  // ---------------------------------------------------------------------
  // Requests to the language model
  // ---------------------------------------------------------------------

  const InitialFeedbackSystem: string := "You are " + "a helpful " + "and supportive " + "discrete math " + "tutor."
  const EvaluatorSystem: string := "You are " + "an objective " + "math tutor " + "evaluating " + "student answers."

  /** The two messages `provide_initial_feedback` sends (interactiveAgent.py:14-26):
      the template filled with the raw problem, attempt and solution. */
  function InitialFeedbackRequest(t: Template, problem: string, attempt: string, solution: string)
    : (r: Result<seq<Message>, string>)
    ensures r.Success? <==> Covers(t, map["problem" := problem, "student_sol" := attempt, "correct_solution" := solution])
    ensures r.Success? ==> |r.value| == 2 && r.value[0] == Message(System, InitialFeedbackSystem)
    ensures r.Success? ==> r.value[1] == Message(User, Fill(t, map["problem" := problem, "student_sol" := attempt,
                                                                    "correct_solution" := solution]))
  {
    var args := map["problem" := problem, "student_sol" := attempt, "correct_solution" := solution];
    match Format(t, args)
    case Success(p) => Success([Message(System, InitialFeedbackSystem), Message(User, p)])
    case Failure(k) => Failure(k)
  }

  /** A template that uses only problem, student_sol and correct_solution
      can be filled for every input; unlike the evaluator's, these inputs
      are passed as they are, so surrounding whitespace reaches the prompt. */
  lemma InitialFeedbackTemplateNeverFails(t: Template, problem: string, attempt: string, solution: string)
    requires forall i :: 0 <= i < |t| && t[i].Field? ==> t[i].name in {"problem", "student_sol", "correct_solution"}
    ensures InitialFeedbackRequest(t, problem, attempt, solution).Success?
    ensures InitialFeedbackRequest(t, problem, attempt, solution).value[1].content
         == Fill(t, map["problem" := problem, "student_sol" := attempt, "correct_solution" := solution])
  {
  }

  /** The arguments `evaluate_followup` passes to the evaluation template
      (interactiveAgent.py:78-82): all three are stripped. */
  function FollowupArgs(problem: string, response: string, solution: string): map<string, string> {
    map["statement" := Strip(problem), "solution" := Strip(solution), "student_response" := Strip(response)]
  }

  /** The two messages `evaluate_followup` sends to the evaluator. */
  function FollowupRequest(t: Template, problem: string, response: string, solution: string)
    : (r: Result<seq<Message>, string>)
    ensures r.Success? <==> Covers(t, FollowupArgs(problem, response, solution))
    ensures r.Success? ==> |r.value| == 2 && r.value[0] == Message(System, EvaluatorSystem)
    ensures r.Success? ==> r.value[1] == Message(User, Fill(t, FollowupArgs(problem, response, solution)))
  {
    match Format(t, FollowupArgs(problem, response, solution))
    case Success(p) => Success([Message(System, EvaluatorSystem), Message(User, p)])
    case Failure(k) => Failure(k)
  }

  /** Because the inputs are stripped, whitespace around the problem, the
      answer or the solution never changes what the evaluator is asked. */
  lemma FollowupIgnoresSurroundingSpace(t: Template, problem: string, response: string, solution: string)
    ensures FollowupRequest(t, Strip(problem), Strip(response), Strip(solution))
         == FollowupRequest(t, problem, response, solution)
  {
    StripIdempotent(problem);
    StripIdempotent(response);
    StripIdempotent(solution);
    assert FollowupArgs(Strip(problem), Strip(response), Strip(solution)) == FollowupArgs(problem, response, solution);
  }

  /** A template that uses only the three documented field names can be
      filled for every input. */
  lemma FollowupTemplateNeverFails(t: Template, problem: string, response: string, solution: string)
    requires forall i :: 0 <= i < |t| && t[i].Field? ==> t[i].name in {"statement", "solution", "student_response"}
    ensures FollowupRequest(t, problem, response, solution).Success?
  {
  }

  // ---------------------------------------------------------------------
  // start_session
  // ---------------------------------------------------------------------

  /** The indentation of the context's lines inside the f-string. */
  const Indent: string := "        "

  /** The fixed wording of the tutoring context. Each text is written as a
      concatenation of short literals, which the verifier handles far more
      cheaply than one long literal; the strings are the same. */
  const ContextIntro: string :=
    "\n" + Indent + "You are " + "an AI " + "math tutor " + "helping " + "a student. " + "Here is " + "the problem, "
      + "their attempt, " + "and the " + "correct " + "solution:" + "\n\n" + Indent
  const ContextGap: string := "\n\n" + Indent
  const ContextOutro: string :=
    "\n\n" + Indent + "Begin " + "tutoring " + "by " + "asking " + "clarifying " + "questions. " + "Do NOT " + "reveal "
      + "the correct " + "solution " + "directly." + "\n" + Indent + "Instead, " + "use it " + "internally " + "to guide "
      + "the student " + "with " + "subtle, " + "progressive " + "hints." + "\n    "

  function OpenTag(tag: string): string {
    "[" + tag + "]\n" + Indent
  }

  function CloseTag(tag: string): string {
    "\n" + Indent + "[/" + tag + "]"
  }

  /** The pieces of the tutoring context of `start_session`
      (interactiveAgent.py:34-51), in order: an introduction, three tagged
      sections holding the inputs, and the closing instructions. */
  function ContextParts(problem: string, attempt: string, solution: string): seq<string> {
    [ ContextIntro,
      OpenTag("PROBLEM"), problem, CloseTag("PROBLEM"), ContextGap,
      OpenTag("STUDENT_ATTEMPT"), attempt, CloseTag("STUDENT_ATTEMPT"), ContextGap,
      OpenTag("OFFICIAL_SOLUTION"), solution, CloseTag("OFFICIAL_SOLUTION"), ContextOutro ]
  }

  function TutoringContext(problem: string, attempt: string, solution: string): string {
    Concat(ContextParts(problem, attempt, solution))
  }

  /** The three inputs are the parts at these positions. */
  const ProblemPart: nat := 2
  const AttemptPart: nat := 6
  const SolutionPart: nat := 10

  /** The context embeds the problem, the attempt and the official solution
      verbatim, in that order, each directly after its own opening tag. */
  lemma ContextEmbedsInputs(problem: string, attempt: string, solution: string)
    ensures var parts := ContextParts(problem, attempt, solution);
            var c := TutoringContext(problem, attempt, solution);
            && Offset(parts, ProblemPart) + |problem| <= Offset(parts, AttemptPart)
            && Offset(parts, AttemptPart) + |attempt| <= Offset(parts, SolutionPart)
            && Offset(parts, SolutionPart) + |solution| <= |c|
            && c[Offset(parts, ProblemPart)..Offset(parts, ProblemPart) + |problem|] == problem
            && c[Offset(parts, AttemptPart)..Offset(parts, AttemptPart) + |attempt|] == attempt
            && c[Offset(parts, SolutionPart)..Offset(parts, SolutionPart) + |solution|] == solution
            && c[Offset(parts, ProblemPart) - |OpenTag("PROBLEM")|..Offset(parts, ProblemPart)] == OpenTag("PROBLEM")
            && c[Offset(parts, AttemptPart) - |OpenTag("STUDENT_ATTEMPT")|..Offset(parts, AttemptPart)] == OpenTag("STUDENT_ATTEMPT")
            && c[Offset(parts, SolutionPart) - |OpenTag("OFFICIAL_SOLUTION")|..Offset(parts, SolutionPart)] == OpenTag("OFFICIAL_SOLUTION")
  {
    var parts := ContextParts(problem, attempt, solution);
    PartAfterPart(parts, ProblemPart);
    PartAfterPart(parts, AttemptPart);
    PartAfterPart(parts, SolutionPart);
    OffsetOrder(parts, ProblemPart, AttemptPart);
    OffsetOrder(parts, AttemptPart, SolutionPart);
  }

  /** The user message of `start_session` (interactiveAgent.py:55-61). */
  function OpeningUserText(problem: string, attempt: string): string {
    "\n" + Indent + Indent + "    " + "[PROBLEM]" + "\n" + Indent + Indent + "    " + problem
      + "\n\n" + Indent + Indent + "    " + "[STUDENT_ATTEMPT]" + "\n" + Indent + Indent + "    " + attempt + " "
  }

  /** The transcript `start_session` returns around the already produced
      initial feedback: system scaffolding, the student's opening turn, and
      the feedback as the tutor's first turn. */
  function StartSession(systemPrompt: string, problem: string, attempt: string, solution: string,
                        initialFeedback: string): (r: seq<Message>)
    ensures |r| == 3
    ensures r[0].role == System && r[1].role == User && r[2].role == Assistant
    ensures r[0].content == systemPrompt + "\n" + TutoringContext(problem, attempt, solution)
    ensures r[1].content == OpeningUserText(problem, attempt)
    ensures r[2].content == initialFeedback
  {
    [ Message(System, systemPrompt + "\n" + TutoringContext(problem, attempt, solution)),
      Message(User, OpeningUserText(problem, attempt)),
      Message(Assistant, initialFeedback) ]
  }

  // ---------------------------------------------------------------------
  // save_session_log: the plain-text transcript file
  // ---------------------------------------------------------------------

  /** The speaker label of the transcript file. */
  function Label(r: Role): (l: string)
    ensures l == "GPT" <==> r == Assistant
    ensures l == "Student" <==> r != Assistant
  {
    if r == Assistant then "GPT" else "Student"
  }

  function DialogueLine(m: Message): string {
    Label(m.role) + ": " + m.content + "\n\n"
  }

  /** The dialogue section: one labelled block per message, in order. */
  function Dialogue(msgs: seq<Message>): string {
    if msgs == [] then "" else DialogueLine(msgs[0]) + Dialogue(msgs[1..])
  }

  /** Writing a transcript in two parts writes the parts one after another;
      in particular appending a turn only appends its own labelled line. */
  lemma {:induction false} DialogueAppend(a: seq<Message>, b: seq<Message>)
    ensures Dialogue(a + b) == Dialogue(a) + Dialogue(b)
  {
    if a != [] {
      assert (a + b)[0] == a[0];
      assert (a + b)[1..] == a[1..] + b;
      DialogueAppend(a[1..], b);
      assert Dialogue(a + b) == DialogueLine(a[0]) + (Dialogue(a[1..]) + Dialogue(b));
    } else {
      assert a + b == b;
    }
  }

  /** Python truthiness of an optional string argument (`None` and `""` are false). */
  predicate Truthy(v: Option<string>) {
    v.Some? && v.value != ""
  }

  const AnnotationHeader: string := "\n=== Researcher Annotation ===\n"

  function TagLine(t: string): string {
    "Tag: " + t + "\n"
  }

  function NotesLine(n: string): string {
    "Notes: " + n + "\n"
  }

  lemma AnnotationLinesDiffer(t: string, n: string, u: string)
    ensures TagLine(t) != AnnotationHeader && NotesLine(n) != AnnotationHeader && TagLine(t) != NotesLine(n)
    ensures TagLine(t) == TagLine(u) ==> t == u
    ensures NotesLine(n) == NotesLine(u) ==> n == u
  {
    assert TagLine(t)[0] == 'T' && NotesLine(n)[0] == 'N' && AnnotationHeader[0] == '\n';
    if TagLine(t) == TagLine(u) {
      assert t == TagLine(t)[5..5 + |t|] == TagLine(u)[5..5 + |u|] == u;
    }
    if NotesLine(n) == NotesLine(u) {
      assert n == NotesLine(n)[7..7 + |n|] == NotesLine(u)[7..7 + |u|] == u;
    }
  }

  /** The annotation lines of `save_session_log` (interactiveAgent.py:112-117):
      the section exists only when there is a tag or notes, and each line
      only when its own value is present. */
  function AnnotationLines(tag: Option<string>, notes: Option<string>): (r: seq<string>)
    ensures r == [] <==> !(Truthy(tag) || Truthy(notes))
    ensures r != [] ==> r[0] == AnnotationHeader
    ensures forall t :: TagLine(t) in r <==> tag == Some(t) && t != ""
    ensures forall n :: NotesLine(n) in r <==> notes == Some(n) && n != ""
  {
    var r := if Truthy(tag) || Truthy(notes) then
      [AnnotationHeader]
        + (if Truthy(tag) then [TagLine(tag.value)] else [])
        + (if Truthy(notes) then [NotesLine(notes.value)] else [])
    else [];
    assert forall t :: TagLine(t) in r <==> tag == Some(t) && t != "" by {
      forall t ensures TagLine(t) in r <==> tag == Some(t) && t != "" {
        AnnotationLinesDiffer(t, if Truthy(notes) then notes.value else "", if Truthy(tag) then tag.value else "");
      }
    }
    assert forall n :: NotesLine(n) in r <==> notes == Some(n) && n != "" by {
      forall n ensures NotesLine(n) in r <==> notes == Some(n) && n != "" {
        AnnotationLinesDiffer(if Truthy(tag) then tag.value else "", n, if Truthy(notes) then notes.value else "");
      }
    }
    r
  }

  function LogHeader(problem: string, attempt: string, solution: string): string {
    "=== Main Tutoring Session ===\n" + "Problem: " + problem + "\n\n" + "Student Attempt: " + attempt + "\n\n"
      + "Correct Solution: " + solution + "\n\n" + "Dialogue:\n"
  }

  /** The text `save_session_log` writes to its file. */
  function SessionLogText(problem: string, attempt: string, solution: string, msgs: seq<Message>,
                          tag: Option<string>, notes: Option<string>): string {
    LogHeader(problem, attempt, solution) + Dialogue(msgs) + Concat(AnnotationLines(tag, notes))
  }

  /** Without a tag or notes the file ends with the last dialogue turn. */
  lemma LogWithoutAnnotation(problem: string, attempt: string, solution: string, msgs: seq<Message>,
                             tag: Option<string>, notes: Option<string>)
    requires !Truthy(tag) && !Truthy(notes)
    ensures SessionLogText(problem, attempt, solution, msgs, tag, notes)
         == LogHeader(problem, attempt, solution) + Dialogue(msgs)
  {
  }
}
