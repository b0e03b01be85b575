/**
  The demographics page (pages/2_Demographics.py): a consent gate, four
  required inputs and one optional one, a submit button that is only shown
  once the required inputs are filled in, and the record stored in the
  session when it is pressed.
 */
module Demographics {
  import opened Basics
  import opened Dict

  /** The age slider runs from 18 to 100. */
  const MinAge: int := 18
  const MaxAge: int := 100
  type Age = x: int | MinAge <= x <= MaxAge witness MinAge

  /** The slider's initial position. */
  const DefaultAge: Age := 18

  /** The placeholder both select boxes start on. */
  const Placeholder: string := "Select"
  const GenderOptions: seq<string> := [Placeholder, "Male", "Female", "Non-binary", "Other"]
  const LevelOptions: seq<string> := [Placeholder, "Highschool", "Bachelor", "Masters", "PhD"]

  /** What the widgets hold in one run of the page. */
  datatype Form = Form(age: Age, gender: string, level: string, background: string, otherDetails: string)

  /** The values the widgets can take: select boxes return one of their options. */
  predicate WellFormed(f: Form) {
    f.gender in GenderOptions && f.level in LevelOptions
  }

  /** The form as first shown: default age, placeholders, empty text. */
  function InitialForm(): (f: Form)
    ensures WellFormed(f) && f.age == DefaultAge
    ensures f.gender == Placeholder && f.level == Placeholder
    ensures f.background == "" && f.otherDetails == ""
  {
    Form(DefaultAge, GenderOptions[0], LevelOptions[0], "", "")
  }

  /** Python's truth value of an int. */
  predicate IntTruthy(n: int) {
    n != 0
  }

  /** The condition under which the submit button is drawn: the age is
      truthy, neither select box is on its placeholder, the background is
      non-empty. */
  predicate CanSubmit(f: Form) {
    IntTruthy(f.age) && f.gender != Placeholder && f.level != Placeholder && f.background != ""
  }

  /** The age test never fails, because the slider cannot reach 0: the
      button depends on the three other required inputs only, and never on
      the optional details. */
  lemma CanSubmitIff(f: Form)
    ensures CanSubmit(f) <==> f.gender != Placeholder && f.level != Placeholder && |f.background| > 0
    ensures CanSubmit(f) <==> CanSubmit(f.(otherDetails := "", age := DefaultAge))
  {
  }

  /** The initial form cannot be submitted. */
  lemma InitialFormBlocked()
    ensures !CanSubmit(InitialForm())
  {
  }

  /** Every choice other than the placeholders, with some background, can
      be submitted. */
  lemma ChoicesSubmittable(f: Form)
    requires WellFormed(f) && f.background != ""
    requires f.gender != GenderOptions[0] && f.level != LevelOptions[0]
    ensures CanSubmit(f)
    ensures exists i, j :: 1 <= i < |GenderOptions| && 1 <= j < |LevelOptions|
                           && f.gender == GenderOptions[i] && f.level == LevelOptions[j]
  {
    var i :| 0 <= i < |GenderOptions| && GenderOptions[i] == f.gender;
    var j :| 0 <= j < |LevelOptions| && LevelOptions[j] == f.level;
  }

  /** A stored demographics value. */
  datatype Field = Number(n: int) | Words(s: string)

  const RecordKeys: seq<string> := ["age", "gender", "academic_background", "academic_level"]

  /** The `demographics` dict: exactly four entries, in this order. */
  function Record(f: Form): (d: Dict<string, Field>)
    ensures |d| == |RecordKeys|
    ensures forall i :: 0 <= i < |d| ==> d[i].0 == RecordKeys[i]
  {
    [ ("age", Number(f.age)), ("gender", Words(f.gender)),
      ("academic_background", Words(f.background)), ("academic_level", Words(f.level)) ]
  }

  /** Reading the record back: the four values, when every key holds the
      kind of value the page stores and the age is in the slider's range. */
  function ReadRecord(d: Dict<string, Field>): Option<(Age, string, string, string)> {
    var age, gender := Get(d, "age"), Get(d, "gender");
    var background, level := Get(d, "academic_background"), Get(d, "academic_level");
    if && age.Some? && age.value.Number? && MinAge <= age.value.n <= MaxAge
       && gender.Some? && gender.value.Words?
       && level.Some? && level.value.Words?
       && background.Some? && background.value.Words?
    then Some((age.value.n, gender.value.s, level.value.s, background.value.s))
    else None
  }

  /** The record keeps the four required inputs and nothing else: they can be
      read back from it, and the optional details are not among its keys. */
  lemma RecordRoundTrip(f: Form)
    ensures ReadRecord(Record(f)) == Some((f.age, f.gender, f.level, f.background))
    ensures !HasKey(Record(f), "other_details")
    ensures forall other :: Record(f.(otherDetails := other)) == Record(f)
  {
    var d := Record(f);
    assert DistinctKeys(d);
    GetEntry(d, 0);
    GetEntry(d, 1);
    GetEntry(d, 2);
    GetEntry(d, 3);
  }

  /** The page's share of the session state. */
  datatype Session = Session(consentGiven: bool, demographics: Option<Dict<string, Field>>, submitted: bool)

  /** Where a run of the page ends. */
  datatype Exit = Stopped | Waiting | ToTutoring

  /** One run of the page with the widgets holding `f`; `pressed` says
      whether the submit button was clicked. */
  function Run(s: Session, f: Form, pressed: bool): (r: (Session, Exit))
    ensures !s.consentGiven ==> r == (s, Stopped)
    ensures s.consentGiven && pressed && CanSubmit(f) ==>
              && r.1 == ToTutoring
              && r.0 == Session(s.consentGiven, Some(Record(f)), true)
    ensures s.consentGiven && !(pressed && CanSubmit(f)) ==> r == (s, Waiting)
  {
    if !s.consentGiven then (s, Stopped)
    else if CanSubmit(f) && pressed then
      (s.(demographics := Some(Record(f)), submitted := true), ToTutoring)
    else (s, Waiting)
  }

  /** The flag is raised only together with a stored record, and only for a
      form that could be submitted: from a session without the flag, a run
      that sets it stored exactly the four required inputs. */
  lemma SubmittedMeansRecorded(s: Session, f: Form, pressed: bool)
    requires !s.submitted
    ensures var r := Run(s, f, pressed).0;
            r.submitted ==> && s.consentGiven && CanSubmit(f) && r.demographics.Some?
                            && ReadRecord(r.demographics.value) == Some((f.age, f.gender, f.level, f.background))
  {
    if Run(s, f, pressed).0.submitted {
      RecordRoundTrip(f);
    }
  }
}
