/** The contact page: the form's validation rules, the change handler that
    clears a field's error, and the submit handler that sends only a valid
    form and clears it after a successful send. */
module Contact {
  import opened Wrappers
  import opened Text
  import opened Security

  /** The inputs of the form, by their `name` attribute. */
  datatype Field = Name | Email | Phone | Subject | Message | Company | Honeypot

  /** The form data: every field holds a string. */
  datatype Form = Form(
    name: string, email: string, phone: string, subject: string,
    message: string, company: string, honeypot: string)

  /** `formData[f]`. */
  function Get(form: Form, f: Field): string {
    match f
    case Name => form.name
    case Email => form.email
    case Phone => form.phone
    case Subject => form.subject
    case Message => form.message
    case Company => form.company
    case Honeypot => form.honeypot
  }

  /** `{ ...formData, [f]: v }`: the field takes the value, the others keep
      theirs. */
  function With(form: Form, f: Field, v: string): (r: Form)
    ensures Get(r, f) == v
    ensures forall g :: g != f ==> Get(r, g) == Get(form, g)
  {
    match f
    case Name => form.(name := v)
    case Email => form.(email := v)
    case Phone => form.(phone := v)
    case Subject => form.(subject := v)
    case Message => form.(message := v)
    case Company => form.(company := v)
    case Honeypot => form.(honeypot := v)
  }

  /** The error recorded for a field. */
  datatype FieldError =
    | NameRequired | EmailRequired | EmailInvalid | PhoneInvalid
    | SubjectRequired | MessageRequired | MessageTooShort | Spam

  type Errors = map<Field, FieldError>

  /** What validateForm accepts, field by field. */
  predicate FormOk(form: Form)
  {
    !IsBlank(form.name)
    && !IsBlank(form.email) && EmailPattern(form.email)
    && (IsBlank(form.phone) || PhonePattern(form.phone))
    && !IsBlank(form.subject)
    && |Trim(form.message)| >= 10
    && form.honeypot == ""
  }

  /** The tests validateForm makes on the form. The email and phone
      patterns are matched against the untrimmed value. */
  datatype Checks = Checks(
    nameBlank: bool, emailBlank: bool, emailMatches: bool, phoneBlank: bool, phoneMatches: bool,
    subjectBlank: bool, messageLength: nat, honeypotFilled: bool)

  function ChecksOf(form: Form): Checks {
    Checks(IsBlank(form.name), IsBlank(form.email), EmailPattern(form.email),
      IsBlank(form.phone), PhonePattern(form.phone), IsBlank(form.subject),
      |Trim(form.message)|, form.honeypot != "")
  }

  /** The error validateForm records for one field, if any. */
  function ErrorFor(c: Checks, f: Field): Option<FieldError>
  {
    match f
    case Name => if c.nameBlank then Some(NameRequired) else None
    case Email =>
      if c.emailBlank then Some(EmailRequired)
      else if !c.emailMatches then Some(EmailInvalid)
      else None
    case Phone => if !c.phoneBlank && !c.phoneMatches then Some(PhoneInvalid) else None
    case Subject => if c.subjectBlank then Some(SubjectRequired) else None
    case Message =>
      if c.messageLength == 0 then Some(MessageRequired)
      else if c.messageLength < 10 then Some(MessageTooShort)
      else None
    case Company => None
    case Honeypot => if c.honeypotFilled then Some(Spam) else None
  }

  /** `if (...) newErrors[f] = ...`. */
  function Record(e: Errors, f: Field, r: Option<FieldError>): (e2: Errors)
    ensures r.None? ==> e2 == e
    ensures r.Some? ==> e2 == e[f := r.value]
  {
    if r.Some? then e[f := r.value] else e
  }

  /** `e` holds exactly the errors of the fields in `done`. */
  predicate Recorded(e: Errors, c: Checks, done: set<Field>)
  {
    forall f: Field :: (f in e <==> f in done && ErrorFor(c, f).Some?) && (f in e ==> e[f] == ErrorFor(c, f).value)
  }

  const Fields := {Name, Email, Phone, Subject, Message, Company, Honeypot}

  /** The errors object built from the outcome of each test, recorded in
      the order of the form; the company field has no test. */
  function Collect(name: Option<FieldError>, email: Option<FieldError>, phone: Option<FieldError>,
                   subject: Option<FieldError>, message: Option<FieldError>, honeypot: Option<FieldError>): Errors
  {
    Record(Record(Record(Record(Record(Record(map[], Name, name), Email, email), Phone, phone),
      Subject, subject), Message, message), Honeypot, honeypot)
  }

  /** Each test's outcome lands under its own field and nowhere else. */
  lemma CollectEntries(name: Option<FieldError>, email: Option<FieldError>, phone: Option<FieldError>,
                       subject: Option<FieldError>, message: Option<FieldError>, honeypot: Option<FieldError>)
    ensures var e := Collect(name, email, phone, subject, message, honeypot);
      (Name in e <==> name.Some?) && (Name in e ==> e[Name] == name.value)
      && (Email in e <==> email.Some?) && (Email in e ==> e[Email] == email.value)
      && (Phone in e <==> phone.Some?) && (Phone in e ==> e[Phone] == phone.value)
      && (Subject in e <==> subject.Some?) && (Subject in e ==> e[Subject] == subject.value)
      && (Message in e <==> message.Some?) && (Message in e ==> e[Message] == message.value)
      && (Honeypot in e <==> honeypot.Some?) && (Honeypot in e ==> e[Honeypot] == honeypot.value)
      && Company !in e
  {
  }

  /** No entry at all exactly when every test passed. */
  lemma CollectEmpty(name: Option<FieldError>, email: Option<FieldError>, phone: Option<FieldError>,
                     subject: Option<FieldError>, message: Option<FieldError>, honeypot: Option<FieldError>)
    ensures Collect(name, email, phone, subject, message, honeypot) == map[] <==>
      name.None? && email.None? && phone.None? && subject.None? && message.None? && honeypot.None?
  {
    CollectEntries(name, email, phone, subject, message, honeypot);
  }

  /** The errors object validateForm builds from the results of its
      tests, one check per field in the order of the form. */
  function ValidateChecks(c: Checks): Errors
  {
    Collect(ErrorFor(c, Name), ErrorFor(c, Email), ErrorFor(c, Phone),
      ErrorFor(c, Subject), ErrorFor(c, Message), ErrorFor(c, Honeypot))
  }

  /** A field has an entry in the errors object exactly when its check
      fails, and the entry is that check's error. */
  lemma ValidateChecksRecorded(c: Checks)
    ensures Recorded(ValidateChecks(c), c, Fields)
  {
    CollectEntries(ErrorFor(c, Name), ErrorFor(c, Email), ErrorFor(c, Phone),
      ErrorFor(c, Subject), ErrorFor(c, Message), ErrorFor(c, Honeypot));
    var e := ValidateChecks(c);
    forall f: Field
      ensures (f in e <==> f in Fields && ErrorFor(c, f).Some?) && (f in e ==> e[f] == ErrorFor(c, f).value)
    {
      match f
      case Name =>
      case Email =>
      case Phone =>
      case Subject =>
      case Message =>
      case Company =>
      case Honeypot =>
    }
  }

  /** validateForm. */
  function ValidateForm(form: Form): Errors {
    ValidateChecks(ChecksOf(form))
  }

  /** The form passes exactly when validateForm reports nothing. */
  lemma ValidateFormIff(form: Form)
    ensures ValidateForm(form) == map[] <==> FormOk(form)
  {
    var c := ChecksOf(form);
    assert ValidateForm(form) == map[] <==>
      ErrorFor(c, Name).None? && ErrorFor(c, Email).None? && ErrorFor(c, Phone).None? &&
      ErrorFor(c, Subject).None? && ErrorFor(c, Message).None? && ErrorFor(c, Honeypot).None?
    by {
      CollectEmpty(ErrorFor(c, Name), ErrorFor(c, Email), ErrorFor(c, Phone),
        ErrorFor(c, Subject), ErrorFor(c, Message), ErrorFor(c, Honeypot));
    }
  }

  /** The entry of one field in validateForm's result. */
  lemma ErrorOfField(form: Form, f: Field)
    ensures f in ValidateForm(form) <==> ErrorFor(ChecksOf(form), f).Some?
    ensures f in ValidateForm(form) ==> ValidateForm(form)[f] == ErrorFor(ChecksOf(form), f).value
  {
    ValidateChecksRecorded(ChecksOf(form));
  }

  /** The rule for each field: which inputs get an error and which one. */
  lemma ValidateFormRules(form: Form)
    ensures Name in ValidateForm(form) <==> IsBlank(form.name)
    ensures Email in ValidateForm(form) <==> IsBlank(form.email) || !EmailPattern(form.email)
    ensures Email in ValidateForm(form) ==> (ValidateForm(form)[Email] == EmailRequired <==> IsBlank(form.email))
    ensures Email in ValidateForm(form) ==> ValidateForm(form)[Email] in {EmailRequired, EmailInvalid}
    ensures Phone in ValidateForm(form) <==> !IsBlank(form.phone) && !PhonePattern(form.phone)
    ensures Subject in ValidateForm(form) <==> IsBlank(form.subject)
    ensures Message in ValidateForm(form) <==> |Trim(form.message)| < 10
    ensures Message in ValidateForm(form) ==> (ValidateForm(form)[Message] == MessageRequired <==> |Trim(form.message)| == 0)
    ensures Honeypot in ValidateForm(form) <==> form.honeypot != ""
    ensures Company !in ValidateForm(form)
  {
    NameSubjectRules(form);
    EmailRules(form);
    PhoneRule(form);
    MessageRules(form);
    HoneypotRule(form);
  }

  lemma NameSubjectRules(form: Form)
    ensures Name in ValidateForm(form) <==> IsBlank(form.name)
    ensures Subject in ValidateForm(form) <==> IsBlank(form.subject)
    ensures Company !in ValidateForm(form)
  {
    ErrorOfField(form, Name);
    ErrorOfField(form, Subject);
    ErrorOfField(form, Company);
  }

  lemma EmailRules(form: Form)
    ensures Email in ValidateForm(form) <==> IsBlank(form.email) || !EmailPattern(form.email)
    ensures Email in ValidateForm(form) ==> (ValidateForm(form)[Email] == EmailRequired <==> IsBlank(form.email))
    ensures Email in ValidateForm(form) ==> ValidateForm(form)[Email] in {EmailRequired, EmailInvalid}
  {
    ErrorOfField(form, Email);
  }

  lemma PhoneRule(form: Form)
    ensures Phone in ValidateForm(form) <==> !IsBlank(form.phone) && !PhonePattern(form.phone)
  {
    ErrorOfField(form, Phone);
  }

  lemma MessageRules(form: Form)
    ensures Message in ValidateForm(form) <==> |Trim(form.message)| < 10
    ensures Message in ValidateForm(form) ==> (ValidateForm(form)[Message] == MessageRequired <==> |Trim(form.message)| == 0)
  {
    ErrorOfField(form, Message);
  }

  lemma HoneypotRule(form: Form)
    ensures Honeypot in ValidateForm(form) <==> form.honeypot != ""
  {
    ErrorOfField(form, Honeypot);
  }

  /** What the submit handler posts: the trimmed values plus the language
      and the time of sending. */
  datatype Payload = Payload(
    name: string, email: string, phone: string, subject: string,
    message: string, company: string, language: string, timestamp: string)

  function PayloadOf(form: Form, language: string, timestamp: string): Payload
  {
    Payload(Trim(form.name), Trim(form.email), Trim(form.phone), Trim(form.subject),
      Trim(form.message), Trim(form.company), language, timestamp)
  }

  lemma TrimUnchanged(s: string)
    requires |s| > 0 && !IsWhitespace(s[0]) && !IsWhitespace(s[|s| - 1])
    ensures Trim(s) == s
  {
  }

  /** A payload built from a form that passes validation has a non-empty
      name and subject, the email exactly as validated, and a message of at
      least ten characters, all free of surrounding white space. */
  lemma ValidPayload(form: Form, language: string, timestamp: string)
    requires ValidateForm(form) == map[]
    ensures var p := PayloadOf(form, language, timestamp);
      p.name != "" && p.subject != "" && |p.message| >= 10
      && p.email == form.email && EmailPattern(p.email)
      && Trim(p.name) == p.name && Trim(p.message) == p.message
  {
    var e := form.email;
    ValidateFormIff(form);
    EmailIff(e);
    var i :| 0 < i < |e| && e[i] == '@' && '@' !in e[..i] && '@' !in e[i + 1..] && DotInside(e[i + 1..]);
    assert !IsWhitespace(e[0]) && !IsWhitespace(e[|e| - 1]);
    TrimUnchanged(e);
    TrimIdempotent(form.name);
    TrimIdempotent(form.message);
  }

  /** The outcome of posting to /api/contact. */
  datatype SendOutcome = Delivered | HttpError(status: int) | NetworkError

  datatype Status = FormInvalid | Sent | SubmitFailed

  const EmptyForm := Form("", "", "", "", "", "", "")

  /** What handleSubmit leaves behind. */
  datatype Submission = Submission(
    sent: Option<Payload>, form: Form, errors: Errors, isSubmitting: bool, status: Option<Status>)

  /** handleSubmit on the form and errors it finds: a form with validation
      errors stores them and sends nothing; otherwise the trimmed payload is
      posted, a delivered post clears the form, and the submitting flag is
      down again at the end. */
  function Submit(form: Form, errors: Errors, isSubmitting: bool, language: string, timestamp: string, outcome: SendOutcome): (r: Submission)
  {
    var newErrors := ValidateForm(form);
    if newErrors != map[] then Submission(None, form, newErrors, isSubmitting, Some(FormInvalid))
    else if outcome == Delivered then Submission(Some(PayloadOf(form, language, timestamp)), EmptyForm, errors, false, Some(Sent))
    else Submission(Some(PayloadOf(form, language, timestamp)), form, errors, false, Some(SubmitFailed))
  }

  /** The submit gate: something is sent exactly when validation passes,
      it is the trimmed form, and only a delivered post clears the form. */
  lemma SubmitRules(form: Form, errors: Errors, isSubmitting: bool, language: string, timestamp: string, outcome: SendOutcome)
    ensures var r := Submit(form, errors, isSubmitting, language, timestamp, outcome);
      (r.sent.Some? <==> FormOk(form))
      && (r.sent.None? ==> r.errors == ValidateForm(form) && r.errors != map[] && r.status == Some(FormInvalid) && r.form == form)
      && (r.sent.Some? ==> r.sent.value == PayloadOf(form, language, timestamp) && r.errors == errors && !r.isSubmitting)
      && (r.sent.Some? && outcome == Delivered ==> r.form == EmptyForm && r.status == Some(Sent))
      && (r.sent.Some? && outcome != Delivered ==> r.form == form && r.status == Some(SubmitFailed))
  {
    ValidateFormIff(form);
  }

  lemma SubmissionFields(r: Submission)
    ensures Submission(r.sent, r.form, r.errors, r.isSubmitting, r.status) == r
  {
  }

  /** The contact page's state. */
  class ContactPage {
    var form: Form
    var errors: Errors
    var isSubmitting: bool
    var status: Option<Status>

    constructor()
      ensures form == EmptyForm && errors == map[]
      ensures !isSubmitting && status == None
    {
      form := EmptyForm;
      errors := map[];
      isSubmitting := false;
      status := None;
    }

    /** handleChange: the named field takes the value and loses its error;
      every other field and error is kept. */
    method HandleChange(f: Field, value: string)
      modifies this
      ensures form == With(old(form), f, value)
      ensures errors == old(errors) - {f}
      ensures isSubmitting == old(isSubmitting) && status == old(status)
    {
      form := With(form, f, value);
      if f in errors {
        errors := errors - {f};
      }
    }

    /** handleSubmit: returns what was sent, if anything. */
    method HandleSubmit(language: string, timestamp: string, outcome: SendOutcome) returns (sent: Option<Payload>)
      modifies this
      ensures Submission(sent, form, errors, isSubmitting, status)
        == Submit(old(form), old(errors), old(isSubmitting), language, timestamp, outcome)
    {
      var r := Submit(form, errors, isSubmitting, language, timestamp, outcome);
      var st := Submission(r.sent, r.form, r.errors, r.isSubmitting, r.status);
      SubmissionFields(r);
      sent := st.sent;
      form := st.form;
      errors := st.errors;
      isSubmitting := st.isSubmitting;
      status := st.status;
    }
  }

  /** A blank phone is never an error, and a filled honeypot always is,
      however the rest of the form looks. */
  lemma PhoneOptionalHoneypotFatal(form: Form)
    ensures IsBlank(form.phone) ==> Phone !in ValidateForm(form)
    ensures form.honeypot != "" ==> ValidateForm(form) != map[]
  {
    ValidateFormRules(form);
  }

  /** Setting one field leaves every other field as it was. */
  lemma ChangeTouchesOneField(form: Form, f: Field, g: Field, v: string)
    requires f != g
    ensures Get(With(form, f, v), g) == Get(form, g)
  {
  }
}
