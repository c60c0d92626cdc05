/** The "Add Encrypted Course Grade" form: `handleChange`, the enabling of
    its submit button, and the values and messages `addTranscript` derives
    from it. */
module AddForm {
  import opened Common
  import opened Seqs
  import opened Text

  /** `newTranscriptData`: a plain object whose keys are the inputs' names. */
  type Form = map<string, string>

  const InitialForm: Form :=
    map["courseName" := "", "grade" := "", "creditHours" := "1", "semester" := "Fall 2024"]

  /** The inputs whose value is stripped to digits. */
  predicate IsNumericField(name: string) { name == "grade" || name == "creditHours" }

  /** `value.replace(/[^\d]/g, '')`. */
  function StripNonDigits(s: string): (r: string)
    ensures AllDigits(r)
    ensures SubsequenceOf(r, s)
    ensures forall i :: 0 <= i < |s| && IsDigit(s[i]) ==> s[i] in r
  {
    FilterIsSubsequence(s, IsDigit);
    Filter(s, IsDigit)
  }

  /** Stripping keeps every digit of the input, as often as it occurs. */
  lemma StripKeepsDigitCounts(s: string, c: char)
    ensures multiset(StripNonDigits(s))[c] == if IsDigit(c) then multiset(s)[c] else 0
  {
    FilterCounts(s, IsDigit, c);
  }

  lemma StripIdempotent(s: string)
    ensures StripNonDigits(StripNonDigits(s)) == StripNonDigits(s)
  {
    FilterIdempotent(s, IsDigit);
  }

  /** A string of digits is left as it is. */
  lemma StripDigitsUnchanged(s: string)
    requires AllDigits(s)
    ensures StripNonDigits(s) == s
  {
    FilterKeepsAll(s, IsDigit);
  }

  /** `setTranscriptData({ ...transcriptData, [name]: v })` where `v` is the
      value stripped to digits for the numeric inputs and the raw value for
      every other input. */
  function HandleChange(form: Form, name: string, value: string): (r: Form)
    ensures r.Keys == form.Keys + {name}
    ensures name in r && r[name] == if IsNumericField(name) then StripNonDigits(value) else value
    ensures forall k :: k in form && k != name ==> r[k] == form[k]
  {
    form[name := if IsNumericField(name) then StripNonDigits(value) else value]
  }

  /** The numeric inputs hold digits only. */
  predicate Sanitised(form: Form)
  {
    AllDigits(Field(form, "grade")) && AllDigits(Field(form, "creditHours"))
  }

  lemma InitialFormSanitised()
    ensures Sanitised(InitialForm)
  {
    assert InitialForm["creditHours"] == "1";
  }

  lemma HandleChangeKeepsSanitised(form: Form, name: string, value: string)
    requires Sanitised(form)
    ensures Sanitised(HandleChange(form, name, value))
  {
  }

  /** A form input's value; a missing key reads as `undefined`, which is as
      falsy as the empty string. */
  function Field(form: Form, name: string): string
  {
    if name in form then form[name] else ""
  }

  /** The submit button's `disabled` attribute. */
  function SubmitDisabled(adding: bool, encrypting: bool, form: Form): (disabled: bool)
    ensures !disabled <==> !adding && !encrypting && Field(form, "courseName") != "" && Field(form, "grade") != ""
  {
    adding || encrypting || Field(form, "courseName") == "" || Field(form, "grade") == ""
  }

  /** `parseInt(grade) || 0`: the only processing the grade gets. On a
      digit-only input (an empty one included) it is the number the digits
      spell; a grade that does not start with a digit counts as 0. */
  function GradeValue(form: Form): (g: nat)
    ensures AllDigits(Field(form, "grade")) ==> g == DigitsValue(Field(form, "grade"))
    ensures Field(form, "grade") == [] || !IsDigit(Field(form, "grade")[0]) ==> g == 0
  {
    OrDefault(ParseInt(Field(form, "grade")), 0)
  }

  /** `parseInt(creditHours) || 1`: on a digit-only input the number its
      digits spell, or 1 when that is 0 (an empty input included). */
  function CreditValue(form: Form): (c: nat)
    ensures c >= 1
    ensures AllDigits(Field(form, "creditHours")) ==>
              c == (if DigitsValue(Field(form, "creditHours")) == 0 then 1 else DigitsValue(Field(form, "creditHours")))
  {
    OrDefault(ParseInt(Field(form, "creditHours")), 1)
  }

  /** Once the button is enabled on a sanitised form, the grade encrypted is
      exactly the number the digits spell. */
  lemma EnabledSubmitGrade(adding: bool, encrypting: bool, form: Form)
    requires Sanitised(form) && !SubmitDisabled(adding, encrypting, form)
    ensures AllDigits(Field(form, "grade")) && GradeValue(form) == DigitsValue(Field(form, "grade"))
  {
  }

  /** The grade is never range-checked: typing "150" (or "101") makes the
      submit button enabled and the encrypted grade 150. */
  lemma GradeNotRangeChecked()
    ensures var form := HandleChange(HandleChange(InitialForm, "courseName", "Algebra"), "grade", "150");
            !SubmitDisabled(false, false, form) && GradeValue(form) == 150
  {
    var named := HandleChange(InitialForm, "courseName", "Algebra");
    assert Field(named, "courseName") == "Algebra";
    StripDigitsUnchanged("150");
    var form := HandleChange(named, "grade", "150");
    assert Field(form, "courseName") == "Algebra" && Field(form, "grade") == "150";
    DigitsOf150();
  }

  lemma DigitsOf150()
    ensures DigitsValue("150") == 150
  {
    assert "15"[..1] == "1";
    assert DigitsValue("15") == 15;
    assert "150"[..2] == "15";
  }

  const RejectedPhrase: string := "user rejected transaction"
  const RejectedMessage: string := "Transaction rejected"
  const SubmissionFailedPrefix: string := "Submission failed: "

  predicate UserRejected(message: Option<string>)
  {
    message.Some? && Contains(message.value, RejectedPhrase)
  }

  /** The banner text for an error thrown while adding a course: a signing
      the user declined is told apart from every other failure, which repeats
      the error's own message (or "Unknown error" when it has none). */
  function SubmissionErrorMessage(message: Option<string>): (r: string)
    ensures r == RejectedMessage <==> UserRejected(message)
    ensures !UserRejected(message) ==> SubmissionFailedPrefix <= r
    ensures !UserRejected(message) && message.Some? && message.value != "" ==>
              r[|SubmissionFailedPrefix|..] == message.value
    ensures !UserRejected(message) && (message.None? || message.value == "") ==>
              r[|SubmissionFailedPrefix|..] == "Unknown error"
  {
    if UserRejected(message) then RejectedMessage
    else
      var r := SubmissionFailedPrefix + (if message.Some? && message.value != "" then message.value else "Unknown error");
      assert r[0] != RejectedMessage[0];
      r
  }
}
