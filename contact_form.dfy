/**
 * The browser-side contact form (frontend/src/components/ContactForm.tsx):
 * `validate` records at most one message per field, `handleSubmit` sends the
 * data only when validation passes, with the phone trimmed and a blank phone
 * dropped, and `handleChange` edits one field and clears that field's error.
 */
module ContactForm {
  import opened Wrappers
  import opened Text
  import ContactSerializer

  datatype Field = Name | Email | Phone | Subject | Message

  /** `ContactFormData`; an absent optional `phone` is `None`. */
  datatype FormData = FormData(name: string, email: string, phone: Option<string>, subject: string, message: string)

  const EmptyForm: FormData := FormData("", "", Some(""), "general", "")

  /** The characters `[^\s@]` admits. */
  predicate EmailChar(c: char) {
    !IsJsSpace(c) && c != '@'
  }

  predicate AllEmailChars(s: string) {
    forall k :: 0 <= k < |s| ==> EmailChar(s[k])
  }

  /** The pattern `/^[^\s@]+@[^\s@]+\.[^\s@]+$/` read literally. */
  ghost predicate MatchesEmailPattern(s: string) {
    exists a, b, c :: a != [] && b != [] && c != [] && AllEmailChars(a) && AllEmailChars(b) && AllEmailChars(c)
      && s == a + "@" + b + "." + c
  }

  /** Index of the first `ch` in `s`, or `|s|` when there is none. */
  function FirstIndex(s: string, ch: char): (r: nat)
    ensures r <= |s|
    ensures forall k :: 0 <= k < r ==> s[k] != ch
    ensures r < |s| ==> s[r] == ch
  {
    if s == [] || s[0] == ch then 0 else 1 + FirstIndex(s[1..], ch)
  }

  /** The part after `@`: no space or `@`, and a `.` with something on both sides. */
  predicate DomainValid(d: string) {
    AllEmailChars(d) && exists j :: 0 < j < |d| - 1 && d[j] == '.'
  }

  /** The email test the form runs, done by splitting at the first `@`. */
  predicate EmailValid(s: string) {
    var i := FirstIndex(s, '@');
    0 < i < |s| && AllEmailChars(s[..i]) && DomainValid(s[i + 1..])
  }

  /** The split-based test accepts exactly the strings the pattern matches. */
  lemma EmailValidIffPattern(s: string)
    ensures EmailValid(s) <==> MatchesEmailPattern(s)
  {
    if EmailValid(s) { EmailValidMatches(s); }
    if MatchesEmailPattern(s) {
      var a, b, c :| a != [] && b != [] && c != [] && AllEmailChars(a) && AllEmailChars(b) && AllEmailChars(c)
        && s == a + "@" + b + "." + c;
      PatternIsValid(s, a, b, c);
    }
  }

  lemma EmailValidMatches(s: string)
    requires EmailValid(s)
    ensures MatchesEmailPattern(s)
  {
    var i := FirstIndex(s, '@');
    var d := s[i + 1..];
    var j :| 0 < j < |d| - 1 && d[j] == '.';
    var a, b, c := s[..i], d[..j], d[j + 1..];
    assert d == b + "." + c;
    assert s == a + "@" + d;
    assert AllEmailChars(b) && AllEmailChars(c);
    assert s == a + "@" + b + "." + c;
  }

  lemma PatternIsValid(s: string, a: string, b: string, c: string)
    requires a != [] && b != [] && c != [] && AllEmailChars(a) && AllEmailChars(b) && AllEmailChars(c)
    requires s == a + "@" + b + "." + c
    ensures EmailValid(s)
  {
    var d := b + "." + c;
    assert s == a + "@" + d;
    FirstIndexAt(s, '@', |a|);
    assert s[..|a|] == a;
    assert s[|a| + 1..] == d;
    assert d[|b|] == '.';
    forall k | 0 <= k < |d| ensures EmailChar(d[k]) {
      if k < |b| { assert d[k] == b[k]; }
      else if k > |b| { assert d[k] == c[k - |b| - 1]; }
    }
    assert DomainValid(d);
  }

  lemma {:induction false} FirstIndexAt(s: string, ch: char, i: nat)
    requires i < |s| && s[i] == ch
    requires forall k :: 0 <= k < i ==> s[k] != ch
    ensures FirstIndex(s, ch) == i
  {
    if i > 0 { FirstIndexAt(s[1..], ch, i - 1); }
  }

  /** The message `validate` records for the name, if any. */
  function NameError(name: string): (r: Option<string>)
    ensures r.Some? <==> JsTrim(name) == "" || Utf16Length(JsTrim(name)) > 200
  {
    if JsTrim(name) == "" then Some("Name is required")
    else if Utf16Length(JsTrim(name)) > 200 then Some("Name must be at most 200 characters")
    else None
  }

  /** Emptiness is judged on the trimmed email, the pattern on the email as typed. */
  function EmailError(email: string): (r: Option<string>)
    ensures r.Some? <==> JsTrim(email) == "" || !EmailValid(email)
  {
    if JsTrim(email) == "" then Some("Email is required")
    else if !EmailValid(email) then Some("Invalid email format")
    else None
  }

  function PhoneError(phone: Option<string>): (r: Option<string>)
    ensures r.Some? <==> phone.Some? && Utf16Length(JsTrim(phone.value)) > 20
  {
    if phone.Some? && phone.value != "" && Utf16Length(JsTrim(phone.value)) > 20
    then Some("Phone number must be at most 20 characters")
    else None
  }

  function SubjectError(subject: string): (r: Option<string>)
    ensures r.Some? <==> subject == ""
  {
    if subject == "" then Some("Subject is required") else None
  }

  function MessageError(message: string): (r: Option<string>)
    ensures r.None? <==> 10 <= Utf16Length(JsTrim(message)) <= 2000
  {
    var m := JsTrim(message);
    if m == "" then Some("Message is required")
    else if Utf16Length(m) < 10 then Some("Message must be at least 10 characters")
    else if Utf16Length(m) > 2000 then Some("Message must be at most 2000 characters")
    else None
  }

  /** The error a field gets from `validate`. */
  function FieldError(d: FormData, f: Field): (r: Option<string>)
    ensures r.Some? ==> r.value != ""
  {
    match f
    case Name => NameError(d.name)
    case Email => EmailError(d.email)
    case Phone => PhoneError(d.phone)
    case Subject => SubjectError(d.subject)
    case Message => MessageError(d.message)
  }

  /** `{ ...prev, [field]: value }`. */
  function WithField(d: FormData, field: Field, value: string): (r: FormData)
    ensures FieldValue(r, field) == Some(value)
    ensures forall f :: f != field ==> FieldValue(r, f) == FieldValue(d, f)
  {
    match field
    case Name => d.(name := value)
    case Email => d.(email := value)
    case Phone => d.(phone := Some(value))
    case Subject => d.(subject := value)
    case Message => d.(message := value)
  }

  function FieldValue(d: FormData, f: Field): Option<string> {
    match f
    case Name => Some(d.name)
    case Email => Some(d.email)
    case Phone => d.phone
    case Subject => Some(d.subject)
    case Message => Some(d.message)
  }

  /** `formData.phone?.trim() || undefined`. */
  function SubmittedPhone(phone: Option<string>): (r: Option<string>)
    ensures r.Some? <==> phone.Some? && JsTrim(phone.value) != ""
    ensures r.Some? ==> r.value == JsTrim(phone.value) && JsTrim(r.value) == r.value
  {
    if phone.Some? && JsTrim(phone.value) != "" then
      StripIdempotent(phone.value, IsJsSpace);
      Some(JsTrim(phone.value))
    else None
  }

  /**
   * The browser counts UTF-16 units and the server counts code points, so a
   * message of five emoji passes the form's minimum but not the server's.
   */
  lemma FormAndServerDisagreeOnLength()
    ensures var m := "😀😀😀😀😀";
      MessageError(m).None? && ContactSerializer.ValidateMessage(m).Err?
  {
    var m := "😀😀😀😀😀";
    assert LeadingCount(m, IsJsSpace) == 0;
    assert TrailingStart(m, IsJsSpace) == 5;
    assert JsTrim(m) == m[0..5] == m;
    Utf16LengthAstral(m);
  }

  /**
   * The errors object `validate` builds, filled field by field in
   * declaration order: each field for which `fieldError` gives a message,
   * with that message.
   */
  method CollectErrors(fieldError: Field -> Option<string>) returns (newErrors: map<Field, string>)
    ensures forall f :: f in newErrors <==> fieldError(f).Some?
    ensures forall f :: f in newErrors ==> newErrors[f] == fieldError(f).value
  {
    newErrors := map[];
    var nameError := fieldError(Name);
    if nameError.Some? { newErrors := newErrors[Name := nameError.value]; }
    var emailError := fieldError(Email);
    if emailError.Some? { newErrors := newErrors[Email := emailError.value]; }
    var phoneError := fieldError(Phone);
    if phoneError.Some? { newErrors := newErrors[Phone := phoneError.value]; }
    var subjectError := fieldError(Subject);
    if subjectError.Some? { newErrors := newErrors[Subject := subjectError.value]; }
    var messageError := fieldError(Message);
    if messageError.Some? { newErrors := newErrors[Message := messageError.value]; }
    forall f
      ensures f in newErrors <==> fieldError(f).Some?
      ensures f in newErrors ==> newErrors[f] == fieldError(f).value
    {
      match f
      case Name => assert Name in newErrors <==> nameError.Some?;
      case Email => assert Email in newErrors <==> emailError.Some?;
      case Phone => assert Phone in newErrors <==> phoneError.Some?;
      case Subject => assert Subject in newErrors <==> subjectError.Some?;
      case Message => assert Message in newErrors <==> messageError.Some?;
    }
  }

  /** The component's state: the form data and the recorded field errors. */
  class ContactFormState {
    var formData: FormData
    var errors: map<Field, string>

    /** Every recorded error carries a message, so `errors[field]` is truthy exactly when present. */
    ghost predicate Valid()
      reads this
    {
      forall f :: f in errors ==> errors[f] != ""
    }

    constructor ()
      ensures Valid()
      ensures formData == EmptyForm && errors == map[]
    {
      formData := EmptyForm;
      errors := map[];
    }

    /** `validate`: fills the errors field by field and reports whether none was recorded. */
    method Validate() returns (ok: bool)
      modifies this`errors
      ensures Valid()
      ensures forall f :: f in errors <==> FieldError(formData, f).Some?
      ensures forall f :: f in errors ==> errors[f] == FieldError(formData, f).value
      ensures ok <==> errors == map[]
    {
      var data := formData;
      var newErrors := CollectErrors(f => FieldError(data, f));
      errors := newErrors;
      ok := newErrors == map[];
    }

    /**
     * `handleSubmit` up to the hand-off to the network: nothing is sent when
     * validation fails; otherwise the form data with the submitted phone.
     */
    method HandleSubmit() returns (sent: Option<FormData>)
      modifies this`errors
      ensures Valid()
      ensures forall f :: f in errors <==> FieldError(formData, f).Some?
      ensures sent.Some? <==> errors == map[]
      ensures sent.Some? ==> sent.value == formData.(phone := SubmittedPhone(formData.phone))
    {
      var ok := Validate();
      if !ok {
        return None;
      }
      sent := Some(formData.(phone := SubmittedPhone(formData.phone)));
    }

    /** The success callback of the submission: the form and its errors are reset. */
    method OnSubmitSuccess()
      modifies this
      ensures Valid()
      ensures formData == EmptyForm && errors == map[]
    {
      formData := EmptyForm;
      errors := map[];
    }

    /** `handleChange`: sets one field and clears that field's error only. */
    method HandleChange(field: Field, value: string)
      requires Valid()
      modifies this
      ensures Valid()
      ensures formData == WithField(old(formData), field, value)
      ensures field !in errors
      ensures forall f :: f != field ==> (f in errors <==> f in old(errors))
      ensures forall f :: f != field && f in errors ==> errors[f] == old(errors[f])
    {
      formData := WithField(formData, field, value);
      if field in errors && errors[field] != "" {
        errors := errors - {field};
      }
    }
  }
}
