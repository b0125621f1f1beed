/**
 * The questionnaire form's logic (components/quote/QuoteForm.tsx): the state
 * reducer, the per-section validation and the numbering of questions.
 *
 * Answers are kept under their question ids. An answer is whatever a widget
 * reported: a text, a number (the sliders) or a list of chosen options (the
 * check boxes); a missing key is an unanswered question.
 */
module QuoteForm {
  import opened Wrappers
  import opened Numeric
  import opened Questions

  datatype Answer = TextAnswer(text: string) | NumberAnswer(number: int) | ChoiceAnswer(choices: seq<string>)

  datatype FormState = FormState(
    currentSection: int,
    responses: map<string, Answer>,
    errors: map<string, string>,
    isSubmitting: bool,
    submitError: Option<string>)

  datatype FormAction =
    | SetResponse(questionId: string, value: Answer)
    | NextSection
    | PrevSection
    | SetErrors(newErrors: map<string, string>)
    | ClearError(clearedId: string)
    | SubmitStart
    | SubmitSuccess
    | SubmitError(error: string)
    | LoadSaved(savedResponses: map<string, Answer>, savedSection: int)
    | OtherAction(kind: string)

  /** The first section, with both sliders preset to 1. */
  const InitialState: FormState := FormState(
    0,
    map["q5_revenue_streams" := NumberAnswer(1), "q10_customer_segments" := NumberAnswer(1)],
    map[], false, None)

  // ---- The reducer ----

  function FormReducer(state: FormState, action: FormAction): (next: FormState)
    ensures !(action.SetResponse? || action.LoadSaved?) ==> next.responses == state.responses
    ensures !(action.SetResponse? || action.SetErrors? || action.ClearError?) ==> next.errors == state.errors
    ensures !(action.NextSection? || action.PrevSection? || action.LoadSaved?) ==> next.currentSection == state.currentSection
    ensures !(action.SubmitStart? || action.SubmitSuccess? || action.SubmitError?) ==>
      next.isSubmitting == state.isSubmitting && next.submitError == state.submitError
    ensures state.currentSection >= 0 && !(action.LoadSaved? && action.savedSection < 0) ==> next.currentSection >= 0
  {
    match action
    case SetResponse(id, value) =>
      state.(responses := state.responses[id := value], errors := state.errors[id := ""])
    case NextSection => state.(currentSection := state.currentSection + 1)
    case PrevSection => state.(currentSection := Max(0, state.currentSection - 1))
    case SetErrors(errors) => state.(errors := errors)
    case ClearError(id) => state.(errors := state.errors[id := ""])
    case SubmitStart => state.(isSubmitting := true, submitError := None)
    case SubmitSuccess => state.(isSubmitting := false)
    case SubmitError(error) => state.(isSubmitting := false, submitError := Some(error))
    case LoadSaved(responses, section) => state.(responses := responses, currentSection := section)
    case OtherAction(_) => state
  }

  /** The state after dispatching `actions` one after another. */
  function ReduceAll(state: FormState, actions: seq<FormAction>): FormState
    decreases |actions|
  {
    if actions == [] then state else ReduceAll(FormReducer(state, actions[0]), actions[1..])
  }

  /** Recording an answer stores it, clears that question's error, and touches no other key or field. */
  lemma SetResponseEffect(state: FormState, id: string, value: Answer)
    ensures var next := FormReducer(state, SetResponse(id, value));
      && id in next.responses && next.responses[id] == value
      && id in next.errors && next.errors[id] == ""
      && next.responses - {id} == state.responses - {id}
      && next.errors - {id} == state.errors - {id}
      && next.currentSection == state.currentSection
      && next.isSubmitting == state.isSubmitting && next.submitError == state.submitError
  {
  }

  /** Clearing an error blanks that question's message and nothing else. */
  lemma ClearErrorEffect(state: FormState, id: string)
    ensures var next := FormReducer(state, ClearError(id));
      && id in next.errors && next.errors[id] == ""
      && next.errors - {id} == state.errors - {id}
      && next.responses == state.responses
  {
  }

  /** Moving back from the first section stays there; forward then back, or back then forward away from the first, returns to the same state. */
  lemma NavigationRoundTrip(state: FormState)
    ensures state.currentSection <= 0 ==> FormReducer(state, PrevSection).currentSection == 0
    ensures state.currentSection >= 0 ==> FormReducer(FormReducer(state, NextSection), PrevSection) == state
    ensures state.currentSection >= 1 ==> FormReducer(FormReducer(state, PrevSection), NextSection) == state
  {
  }

  /** Starting from a section index that is not negative, no sequence of actions makes it negative, unless it loads a negative one. */
  lemma {:induction false} SectionNeverNegative(state: FormState, actions: seq<FormAction>)
    requires state.currentSection >= 0
    requires forall k :: 0 <= k < |actions| && actions[k].LoadSaved? ==> actions[k].savedSection >= 0
    ensures ReduceAll(state, actions).currentSection >= 0
    decreases |actions|
  {
    if actions != [] {
      SectionNeverNegative(FormReducer(state, actions[0]), actions[1..]);
    }
  }

  /** `n` steps forward advance the section by `n`: the reducer itself sets no upper bound. */
  lemma {:induction false} ForwardSteps(state: FormState, n: nat)
    ensures ReduceAll(state, seq(n, _ => NextSection)).currentSection == state.currentSection + n
    decreases n
  {
    if n > 0 {
      var actions := seq(n, _ => NextSection);
      assert actions[0] == NextSection && actions[1..] == seq(n - 1, _ => NextSection);
      ForwardSteps(FormReducer(state, NextSection), n - 1);
    }
  }

  /** Eleven steps from the start go past the last section. */
  lemma ForwardPastLastSection()
    ensures ReduceAll(InitialState, seq(11, _ => NextSection)).currentSection == |Sections|
  {
    ForwardSteps(InitialState, 11);
    SectionSizes();
  }

  /** A submission starts with the flag raised and no error; it ends with the flag lowered, and a failure records its error. */
  lemma SubmitLifecycle(state: FormState, error: string)
    ensures var started := FormReducer(state, SubmitStart);
      && started.isSubmitting && started.submitError.None?
      && !FormReducer(started, SubmitSuccess).isSubmitting
      && FormReducer(started, SubmitSuccess).submitError.None?
      && !FormReducer(started, SubmitError(error)).isSubmitting
      && FormReducer(started, SubmitError(error)).submitError == Some(error)
      && FormReducer(started, SubmitError(error)).responses == state.responses
  {
  }

  /** Restoring saved progress replaces the answers and the section only; an unrecognised action changes nothing. */
  lemma LoadSavedReplacesOnly(state: FormState, responses: map<string, Answer>, section: int, kind: string)
    ensures var next := FormReducer(state, LoadSaved(responses, section));
      && next.responses == responses && next.currentSection == section
      && next.errors == state.errors
      && next.isSubmitting == state.isSubmitting && next.submitError == state.submitError
    ensures FormReducer(state, OtherAction(kind)) == state
  {
  }

  // ---- Numbering ----

  /** The number of questions in sections 1 .. k-1; the contact section is not numbered. */
  function QuestionsBefore(sections: seq<Section>, k: int): nat
    requires k <= |sections|
  {
    if k <= 1 then 0 else QuestionsBefore(sections, k - 1) + |sections[k - 1].questions|
  }

  /** The number shown on the first question of the current section; none for the contact section. */
  method StartingQuestionNumber(currentSection: int) returns (number: Option<int>)
    requires currentSection <= |Sections|
    ensures currentSection == 0 <==> number.None?
    ensures currentSection != 0 ==> number == Some(QuestionsBefore(Sections, currentSection) + 1)
  {
    if currentSection == 0 {
      return None;
    }
    var count := 0;
    var i := 1;
    while i < currentSection
      invariant 1 <= i && (currentSection >= 1 ==> i <= currentSection)
      invariant count == QuestionsBefore(Sections, if currentSection >= 1 then i else currentSection)
    {
      count := count + |Sections[i].questions|;
      i := i + 1;
    }
    return Some(count + 1);
  }

  /** Section k (1 to 10) starts at question 4k - 3, so the numbers run q1 to q38 without gaps. */
  lemma {:induction false} QuestionNumbering(k: int)
    requires 1 <= k <= 10
    ensures QuestionsBefore(Sections, k) + 1 == 4 * k - 3
    ensures k == 10 ==> QuestionsBefore(Sections, k) + |Sections[k].questions| == 38
  {
    SectionSizes();
    if k > 1 {
      QuestionNumbering(k - 1);
    }
  }

  // ---- Validation ----

  /** The characters JavaScript's `trim` and the pattern class `\s` treat as white space. */
  predicate IsJsWhitespace(c: char) {
    var u := c as int;
    || u == 0x09 || u == 0x0A || u == 0x0B || u == 0x0C || u == 0x0D || u == 0x20
    || u == 0xA0 || u == 0x1680 || (0x2000 <= u <= 0x200A) || u == 0x2028 || u == 0x2029
    || u == 0x202F || u == 0x205F || u == 0x3000 || u == 0xFEFF
  }

  /** `s` without its leading and trailing white space. */
  function Trim(s: string): (t: string)
    ensures |t| <= |s|
    ensures t != [] ==> !IsJsWhitespace(t[0]) && !IsJsWhitespace(t[|t| - 1])
    decreases |s|
  {
    if s != [] && IsJsWhitespace(s[0]) then Trim(s[1..])
    else if s != [] && IsJsWhitespace(s[|s| - 1]) then Trim(s[..|s| - 1])
    else s
  }

  /** Trimming leaves nothing exactly when the text is all white space. */
  lemma {:induction false} TrimEmptyIffBlank(s: string)
    ensures Trim(s) == [] <==> forall i :: 0 <= i < |s| ==> IsJsWhitespace(s[i])
    decreases |s|
  {
    if s != [] && IsJsWhitespace(s[0]) {
      TrimEmptyIffBlank(s[1..]);
      assert forall i :: 1 <= i < |s| ==> s[i] == s[1..][i - 1];
    } else if s != [] && IsJsWhitespace(s[|s| - 1]) {
      TrimEmptyIffBlank(s[..|s| - 1]);
      assert forall i :: 0 <= i < |s| - 1 ==> s[i] == s[..|s| - 1][i];
    }
  }

  /** Neither white space nor '@'. */
  predicate IsAddressChar(c: char) {
    !IsJsWhitespace(c) && c != '@'
  }

  predicate AllAddressChars(s: string) {
    forall i :: 0 <= i < |s| ==> IsAddressChar(s[i])
  }

  /**
   * The form's address pattern: a non-empty local part, '@', and a domain with
   * a dot that is neither its first nor its last character, no part holding
   * white space or a second '@'.
   */
  predicate IsEmailAddress(s: string) {
    exists k :: 0 < k < |s| && s[k] == '@' && AllAddressChars(s[..k]) && AllAddressChars(s[k + 1..])
      && exists j :: k + 1 < j < |s| - 1 && s[j] == '.'
  }

  lemma EmailExamples()
    ensures IsEmailAddress("a@b.c")
    ensures !IsEmailAddress("a@b")
    ensures !IsEmailAddress(" ")
  {
    var s := "a@b.c";
    assert s[1] == '@' && s[3] == '.';
    assert s[..1] == "a" && s[2..] == "b.c";
  }

  /** JavaScript truthiness of an answer: missing, the empty text and the number 0 are false. */
  predicate Truthy(v: Option<Answer>) {
    match v
    case None => false
    case Some(TextAnswer(t)) => t != ""
    case Some(NumberAnswer(n)) => n != 0
    case Some(ChoiceAnswer(_)) => true
  }

  /** The `length` of an answer: texts and lists have one, numbers do not. */
  function LengthOf(a: Answer): Option<nat> {
    match a
    case TextAnswer(t) => Some(|t|)
    case NumberAnswer(_) => None
    case ChoiceAnswer(cs) => Some(|cs|)
  }

  /** A value in the pattern test is read as a string: lists joined by commas, numbers in decimal. */
  function AsString(a: Answer): string {
    match a
    case TextAnswer(t) => t
    case NumberAnswer(n) => if n < 0 then "-" + DecimalDigits(-n) else DecimalDigits(n)
    case ChoiceAnswer(cs) => JoinWithCommas(cs)
  }

  function JoinWithCommas(cs: seq<string>): string {
    if cs == [] then "" else if |cs| == 1 then cs[0] else cs[0] + "," + JoinWithCommas(cs[1..])
  }

  function DigitChar(d: nat): (c: char)
    requires d < 10
    ensures '0' <= c <= '9' && c as int - '0' as int == d
  {
    ('0' as int + d) as char
  }

  /** The decimal spelling of a natural number, as JavaScript prints it. */
  function DecimalDigits(n: nat): (s: string)
    ensures |s| >= 1 && forall i :: 0 <= i < |s| ==> '0' <= s[i] <= '9'
    ensures |s| > 1 ==> s[0] != '0'
    decreases n
  {
    if n < 10 then [DigitChar(n)] else DecimalDigits(n / 10) + [DigitChar(n % 10)]
  }

  /** The value of a string of decimal digits. */
  function DigitsValue(s: string): nat
    requires forall i :: 0 <= i < |s| ==> '0' <= s[i] <= '9'
  {
    if s == [] then 0 else 10 * DigitsValue(s[..|s| - 1]) + (s[|s| - 1] as int - '0' as int)
  }

  /** Reading back a printed number gives the number. */
  lemma {:induction false} DecimalDigitsRoundTrip(n: nat)
    ensures DigitsValue(DecimalDigits(n)) == n
    decreases n
  {
    if n >= 10 {
      DecimalDigitsRoundTrip(n / 10);
      var s := DecimalDigits(n);
      assert s[..|s| - 1] == DecimalDigits(n / 10);
    }
  }

  /** Why a question is flagged. */
  datatype FieldError =
    | SelectAtLeastOne
    | SelectValue
    | FieldRequired
    | TooShort(minLength: nat)
    | InvalidEmail
    | TooManySelected(maxSelections: nat)
    | TooLong(maxLength: nat)
  {
    /** The message shown under the question. */
    function Message(): string {
      match this
      case SelectAtLeastOne => "Please select at least one option"
      case SelectValue => "Please select a value"
      case FieldRequired => "This field is required"
      case TooShort(n) => "Please provide at least " + DecimalDigits(n) + " characters"
      case InvalidEmail => "Please enter a valid email address"
      case TooManySelected(n) => "Please select at most " + DecimalDigits(n) + " options"
      case TooLong(n) => "Please keep your response under " + DecimalDigits(n) + " characters"
    }
  }

  function Lookup(responses: map<string, Answer>, id: string): Option<Answer> {
    if id in responses then Some(responses[id]) else None
  }

  /** The text of a text answer; a missing or empty one reads as the empty text. */
  function TextOf(v: Option<Answer>): string
    requires v.Some? ==> v.value.TextAnswer?
  {
    if v.Some? then v.value.text else ""
  }

  /**
   * A required text area holding a non-empty answer that is not a text makes
   * the source fail on `trim`; every other combination is handled.
   */
  predicate Readable(q: Question, v: Option<Answer>) {
    q.required && q.widget == TextArea && Truthy(v) ==> v.value.TextAnswer?
  }

  /** The required-answer check of one question. */
  function RequiredCheck(q: Question, v: Option<Answer>): (e: Option<FieldError>)
    requires Readable(q, v)
    ensures !q.required ==> e.None?
    ensures q.required && v.None? ==> e.Some?
  {
    if !q.required then None
    else match q.widget
      case Checkbox =>
        if !Truthy(v) || (v.Some? && LengthOf(v.value) == Some(0)) then Some(SelectAtLeastOne) else None
      case Slider =>
        if v.None? then Some(SelectValue) else None
      case TextArea =>
        var text := if Truthy(v) then TextOf(v) else "";
        if Trim(text) == [] then Some(FieldRequired)
        else if q.minLength != 0 && |text| < q.minLength then Some(TooShort(q.minLength))
        else None
      case _ =>
        if !Truthy(v) || (v.value.TextAnswer? && Trim(v.value.text) == []) then Some(FieldRequired) else None
  }

  /** The e-mail question holds something that is not an address. */
  predicate EmailRejected(q: Question, v: Option<Answer>) {
    q.id == "email" && Truthy(v) && !IsEmailAddress(AsString(v.value))
  }

  /** A check box with a limit holds more entries than it allows. */
  predicate TooManySelections(q: Question, v: Option<Answer>) {
    && q.widget == Checkbox && q.maxSelections != 0 && Truthy(v)
    && LengthOf(v.value).Some? && LengthOf(v.value).value > q.maxSelections
  }

  /** A text area with a limit holds a longer answer. */
  predicate TooLongText(q: Question, v: Option<Answer>) {
    && q.widget == TextArea && q.maxLength != 0 && Truthy(v)
    && LengthOf(v.value).Some? && LengthOf(v.value).value > q.maxLength
  }

  /** The error left for one question: its checks run in order and the last that fails decides the message. */
  function QuestionError(q: Question, v: Option<Answer>): (e: Option<FieldError>)
    requires Readable(q, v)
    ensures e.None? <==> RequiredCheck(q, v).None? && !EmailRejected(q, v) && !TooManySelections(q, v) && !TooLongText(q, v)
    ensures TooLongText(q, v) ==> e == Some(TooLong(q.maxLength))
    ensures TooManySelections(q, v) && !TooLongText(q, v) ==> e == Some(TooManySelected(q.maxSelections))
    ensures e == Some(InvalidEmail) <==> EmailRejected(q, v) && !TooManySelections(q, v) && !TooLongText(q, v)
    ensures !EmailRejected(q, v) && !TooManySelections(q, v) && !TooLongText(q, v) ==> e == RequiredCheck(q, v)
  {
    if TooLongText(q, v) then Some(TooLong(q.maxLength))
    else if TooManySelections(q, v) then Some(TooManySelected(q.maxSelections))
    else if EmailRejected(q, v) then Some(InvalidEmail)
    else RequiredCheck(q, v)
  }

  predicate AllReadable(questions: seq<Question>, responses: map<string, Answer>) {
    forall i :: 0 <= i < |questions| ==> Readable(questions[i], Lookup(responses, questions[i].id))
  }

  /** The errors of a list of questions: each failing question writes its message under its id, later ones overwriting. */
  function SectionErrors(questions: seq<Question>, responses: map<string, Answer>): map<string, FieldError>
    requires AllReadable(questions, responses)
  {
    if questions == [] then map[]
    else
      var q := questions[|questions| - 1];
      WithQuestionError(SectionErrors(questions[..|questions| - 1], responses), q, Lookup(responses, q.id))
  }

  /** The error table once `question`'s failing message, if any, is written under its id. */
  function WithQuestionError(errors: map<string, FieldError>, q: Question, v: Option<Answer>): map<string, FieldError>
    requires Readable(q, v)
  {
    match QuestionError(q, v)
    case None => errors
    case Some(e) => errors[q.id := e]
  }

  /** The checks of one question, each writing its message over the previous one. */
  method CheckQuestion(errors: map<string, FieldError>, question: Question, value: Option<Answer>)
    returns (updated: map<string, FieldError>)
    requires Readable(question, value)
    ensures updated == WithQuestionError(errors, question, value)
  {
    updated := errors;
    ghost var last: Option<FieldError> := None;
    var required := RequiredCheck(question, value);
    if required.Some? {
      updated := updated[question.id := required.value];
      last := required;
    }
    assert last == required && updated == WithLast(errors, question.id, last);
    var emailRejected := EmailRejected(question, value);
    if emailRejected {
      updated := updated[question.id := InvalidEmail];
      last := Some(InvalidEmail);
    }
    assert updated == WithLast(errors, question.id, last);
    var tooMany := TooManySelections(question, value);
    if tooMany {
      updated := updated[question.id := TooManySelected(question.maxSelections)];
      last := Some(TooManySelected(question.maxSelections));
    }
    assert updated == WithLast(errors, question.id, last);
    var tooLong := TooLongText(question, value);
    if tooLong {
      updated := updated[question.id := TooLong(question.maxLength)];
      last := Some(TooLong(question.maxLength));
    }
    assert updated == WithLast(errors, question.id, last);
    if tooLong {
      assert last == QuestionError(question, value);
    } else if tooMany {
      assert last == QuestionError(question, value);
    } else if emailRejected {
      assert last == QuestionError(question, value);
    } else {
      assert last == required == QuestionError(question, value);
    }
  }

  /** `errors` with `last`, if any, written under `id`. */
  function WithLast(errors: map<string, FieldError>, id: string, last: Option<FieldError>): map<string, FieldError> {
    if last.Some? then errors[id := last.value] else errors
  }

  /** The source's loop over the questions of a section. */
  method ValidateQuestions(questions: seq<Question>, responses: map<string, Answer>)
    returns (errors: map<string, FieldError>)
    requires AllReadable(questions, responses)
    ensures errors == SectionErrors(questions, responses)
  {
    errors := map[];
    var i := 0;
    while i < |questions|
      invariant 0 <= i <= |questions|
      invariant AllReadable(questions[..i], responses)
      invariant errors == SectionErrors(questions[..i], responses)
    {
      errors := CheckQuestion(errors, questions[i], Lookup(responses, questions[i].id));
      assert questions[..i + 1][..i] == questions[..i];
      i := i + 1;
    }
    assert questions[..i] == questions;
  }

  /** The errors of the current section. */
  method ValidateSection(state: FormState) returns (errors: map<string, FieldError>)
    requires 0 <= state.currentSection < |Sections|
    requires AllReadable(Sections[state.currentSection].questions, state.responses)
    ensures errors == SectionErrors(Sections[state.currentSection].questions, state.responses)
  {
    errors := ValidateQuestions(Sections[state.currentSection].questions, state.responses);
  }

  /** A question id is flagged exactly when some question with that id fails. */
  lemma {:induction false} FlaggedIffSomeQuestionFails(questions: seq<Question>, responses: map<string, Answer>, id: string)
    requires AllReadable(questions, responses)
    ensures id in SectionErrors(questions, responses) <==>
      exists i :: 0 <= i < |questions| && questions[i].id == id && QuestionError(questions[i], Lookup(responses, id)).Some?
  {
    if questions != [] {
      var n := |questions| - 1;
      var prefix := questions[..n];
      var q := questions[n];
      assert AllReadable(prefix, responses) by {
        forall i | 0 <= i < n ensures Readable(prefix[i], Lookup(responses, prefix[i].id)) {
          assert prefix[i] == questions[i];
        }
      }
      FlaggedIffSomeQuestionFails(prefix, responses, id);
      if !(q.id == id && QuestionError(q, Lookup(responses, id)).Some?) {
        assert id in SectionErrors(questions, responses) <==> id in SectionErrors(prefix, responses);
        assert forall i :: 0 <= i < n ==> prefix[i] == questions[i];
      }
    }
  }

  /** A flagged id carries the message of the last question with that id that fails. */
  lemma {:induction false} FlaggedMessageIsLastFailure(questions: seq<Question>, responses: map<string, Answer>, id: string)
    requires AllReadable(questions, responses)
    requires id in SectionErrors(questions, responses)
    ensures exists i :: (0 <= i < |questions| && questions[i].id == id
      && Some(SectionErrors(questions, responses)[id]) == QuestionError(questions[i], Lookup(responses, id))
      && forall j :: i < j < |questions| && questions[j].id == id ==> QuestionError(questions[j], Lookup(responses, id)).None?)
  {
    var n := |questions| - 1;
    var prefix := questions[..n];
    var q := questions[n];
    assert AllReadable(prefix, responses) by {
      forall i | 0 <= i < n ensures Readable(prefix[i], Lookup(responses, prefix[i].id)) {
        assert prefix[i] == questions[i];
      }
    }
    var earlier := SectionErrors(prefix, responses);
    var all := SectionErrors(questions, responses);
    if q.id == id && QuestionError(q, Lookup(responses, id)).Some? {
      assert Some(all[id]) == QuestionError(questions[n], Lookup(responses, id));
    } else {
      assert id in earlier && all[id] == earlier[id];
      FlaggedMessageIsLastFailure(prefix, responses, id);
      var i :| 0 <= i < n && prefix[i].id == id
        && Some(earlier[id]) == QuestionError(prefix[i], Lookup(responses, id))
        && forall j :: i < j < n && prefix[j].id == id ==> QuestionError(prefix[j], Lookup(responses, id)).None?;
      assert questions[i] == prefix[i];
      forall j | i < j < |questions| && questions[j].id == id
        ensures QuestionError(questions[j], Lookup(responses, id)).None?
      {
        if j < n {
          assert questions[j] == prefix[j];
        }
      }
    }
  }

  /** An unanswered required question is always flagged, with the required-answer message. */
  lemma UnansweredRequiredIsFlagged(q: Question)
    requires q.required
    ensures QuestionError(q, None) == RequiredCheck(q, None) && QuestionError(q, None).Some?
  {
  }

  /**
   * The challenges question accepts one to three entries: none gives the
   * required-answer message, four give the limit message.
   */
  lemma ChallengesLimit(a: string, b: string, c: string, d: string)
    ensures var q := Sections[7].questions[0];
      && q.id == "q25_primary_challenges"
      && QuestionError(q, Some(ChoiceAnswer([]))) == Some(SelectAtLeastOne)
      && QuestionError(q, Some(ChoiceAnswer([a, b, c]))).None?
      && QuestionError(q, Some(ChoiceAnswer([a, b, c, d]))) == Some(TooManySelected(3))
  {
  }

  /** A blank e-mail answer fails the required check, and the address check then overwrites that message. */
  lemma BlankEmailReportedAsInvalid()
    ensures var q := Sections[0].questions[1];
      && q.id == "email"
      && RequiredCheck(q, Some(TextAnswer(" "))) == Some(FieldRequired)
      && QuestionError(q, Some(TextAnswer(" "))) == Some(InvalidEmail)
  {
    EmailExamples();
    TrimEmptyIffBlank(" ");
  }
}
