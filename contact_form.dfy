/**
 * The contact form of frontend/src/components/ContactUs.jsx: the field
 * validator, and the component state that the change and submit handlers
 * update. The simulated send (two timers) becomes two events.
 */
module ContactForm {
  import opened Text

  /** The form's inputs, by their `name` attribute. */
  datatype Field = Name | Email | Subject | Message | InquiryType

  /** `formData`. */
  datatype ContactData = ContactData(name: string, email: string, subject: string, message: string, inquiryType: string)
  {
    /** `formData[field]`. */
    function Get(f: Field): string {
      match f
      case Name => name
      case Email => email
      case Subject => subject
      case Message => message
      case InquiryType => inquiryType
    }

    /** `{...formData, [field]: value}`: the named field changes, no other. */
    function With(f: Field, value: string): (d: ContactData)
      ensures d.Get(f) == value
      ensures forall g :: g != f ==> d.Get(g) == Get(g)
    {
      match f
      case Name => this.(name := value)
      case Email => this.(email := value)
      case Subject => this.(subject := value)
      case Message => this.(message := value)
      case InquiryType => this.(inquiryType := value)
    }
  }

  /** The form as mounted and as reset after a successful send. */
  const EmptyContact: ContactData := ContactData("", "", "", "", "general")

  const NameRequired: string := "Name is required"
  const EmailRequired: string := "Email is required"
  const EmailInvalid: string := "Email is invalid"
  const SubjectRequired: string := "Subject is required"
  const MessageRequired: string := "Message is required"

  // ---------------------------------------------------------------------
  // The e-mail pattern /\S+@\S+\.\S+/ (unanchored)

  /** `s[i..e]` is one match of the pattern: a non-empty space-free run, '@',
      a non-empty space-free run, '.', a non-empty space-free run. */
  ghost predicate EmailMatch(s: string, i: int, at: int, dot: int, e: int) {
    && 0 <= i < at && at + 1 < dot && dot + 1 < e <= |s|
    && s[at] == '@' && s[dot] == '.'
    && NoSpaceIn(s, i, at) && NoSpaceIn(s, at + 1, dot) && NoSpaceIn(s, dot + 1, e)
  }

  /** The pattern matches somewhere in `s`. */
  ghost predicate EmailShaped(s: string) {
    exists i, at, dot, e :: EmailMatch(s, i, at, dot, e)
  }

  /** The shortest match around an '@' at `at` and a '.' at `dot`: one
      character on each side is enough. */
  predicate ShortestMatch(s: string, at: int, dot: int) {
    && 1 <= at && at + 1 < dot && dot + 1 < |s|
    && s[at] == '@' && s[dot] == '.'
    && !IsJsSpace(s[at - 1]) && !IsJsSpace(s[dot + 1]) && NoSpaceIn(s, at + 1, dot)
  }

  /** Any match can be shrunk to a shortest one, and a shortest one is a match. */
  lemma EmailMatchShrinks(s: string)
    ensures EmailShaped(s) <==> exists at, dot :: ShortestMatch(s, at, dot)
  {
    if EmailShaped(s) {
      var i, at, dot, e :| EmailMatch(s, i, at, dot, e);
      assert ShortestMatch(s, at, dot);
    }
    if exists at, dot :: ShortestMatch(s, at, dot) {
      var at, dot :| ShortestMatch(s, at, dot);
      assert EmailMatch(s, at - 1, at, dot, dot + 2);
    }
  }

  /** `/\S+@\S+\.\S+/.test(s)`. */
  function IsEmailShaped(s: string): (b: bool)
    ensures b <==> EmailShaped(s)
  {
    EmailMatchShrinks(s);
    exists at, dot | 0 <= at < |s| && 0 <= dot < |s| :: ShortestMatch(s, at, dot)
  }

  // ---------------------------------------------------------------------
  // validateForm

  /** The message `validateForm` gives a required text field, "" for none. */
  function RequiredError(value: string, message: string): (m: string)
    requires message != ""
    ensures m == "" <==> !IsBlank(value)
    ensures m != "" ==> m == message
  {
    TrimEmptyIffBlank(value);
    if Trim(value) == [] then message else ""
  }

  /** The message `validateForm` gives the e-mail field, "" for none: the two
      messages exclude each other. */
  function EmailError(email: string): (m: string)
    ensures m == "" <==> !IsBlank(email) && EmailShaped(email)
    ensures m == EmailRequired <==> IsBlank(email)
    ensures m == EmailInvalid <==> !IsBlank(email) && !EmailShaped(email)
  {
    TrimEmptyIffBlank(email);
    if Trim(email) == [] then EmailRequired
    else if !IsEmailShaped(email) then EmailInvalid
    else ""
  }

  /** The messages a field's error entry can hold: "" once cleared by typing. */
  function ErrorMessages(f: Field): set<string> {
    match f
    case Name => {"", NameRequired}
    case Email => {"", EmailRequired, EmailInvalid}
    case Subject => {"", SubjectRequired}
    case Message => {"", MessageRequired}
    case InquiryType => {""}
  }

  /** The message `validateForm` gives field `f` of `d`, "" for none. */
  function FieldError(d: ContactData, f: Field): (m: string)
    ensures m in ErrorMessages(f)
  {
    match f
    case Name => RequiredError(d.name, NameRequired)
    case Email => EmailError(d.email)
    case Subject => RequiredError(d.subject, SubjectRequired)
    case Message => RequiredError(d.message, MessageRequired)
    case InquiryType => ""
  }

  /** `validateForm`: a fresh error map holding each field's message when
      it has one. Every entry is a non-empty message its field can carry;
      which fields are reported is `ValidateReportsFailingFields`. */
  function Validate(d: ContactData): (errors: map<Field, string>)
    ensures InquiryType !in errors
    ensures forall f :: f in errors ==> errors[f] in ErrorMessages(f) && errors[f] != ""
  {
    map f | f in {Name, Email, Subject, Message} && FieldError(d, f) != "" :: FieldError(d, f)
  }

  /** `validateForm` reports exactly the blank fields and a non-blank e-mail
      the pattern does not match, each with its own message, and never the
      inquiry type. */
  lemma ValidateReportsFailingFields(d: ContactData)
    ensures Name in Validate(d) <==> IsBlank(d.name)
    ensures Email in Validate(d) <==> IsBlank(d.email) || !EmailShaped(d.email)
    ensures Subject in Validate(d) <==> IsBlank(d.subject)
    ensures Message in Validate(d) <==> IsBlank(d.message)
    ensures InquiryType !in Validate(d)
    ensures Name in Validate(d) ==> Validate(d)[Name] == NameRequired
    ensures Email in Validate(d) ==> Validate(d)[Email] == (if IsBlank(d.email) then EmailRequired else EmailInvalid)
    ensures Subject in Validate(d) ==> Validate(d)[Subject] == SubjectRequired
    ensures Message in Validate(d) ==> Validate(d)[Message] == MessageRequired
  {
    var errors := Validate(d);
    assert Name in errors <==> FieldError(d, Name) != "";
    assert Email in errors <==> FieldError(d, Email) != "";
    assert Subject in errors <==> FieldError(d, Subject) != "";
    assert Message in errors <==> FieldError(d, Message) != "";
  }

  /** The form passes validation exactly when the four text fields are
      non-blank and the e-mail matches the pattern. */
  predicate Complete(d: ContactData) {
    !IsBlank(d.name) && !IsBlank(d.subject) && !IsBlank(d.message) && !IsBlank(d.email) && IsEmailShaped(d.email)
  }

  lemma ValidateAcceptsExactlyComplete(d: ContactData)
    ensures |Validate(d)| == 0 <==> Complete(d)
  {
    var errors := Validate(d);
    ValidateReportsFailingFields(d);
    if |errors| == 0 {
      assert errors.Keys == {};
    }
    if !Complete(d) {
      assert exists f :: f in errors;
    }
  }

  // ---------------------------------------------------------------------
  // Component state

  class ContactPage {
    var formData: ContactData
    var errors: map<Field, string>
    var isSubmitting: bool
    var isSubmitted: bool

    /** Every error entry is one the validator or the change handler can write. */
    ghost predicate Valid()
      reads this
    {
      forall f :: f in errors ==> errors[f] in ErrorMessages(f)
    }

    constructor ()
      ensures Valid()
      ensures formData == EmptyContact && errors == map[] && !isSubmitting && !isSubmitted
    {
      formData, errors := EmptyContact, map[];
      isSubmitting, isSubmitted := false, false;
    }

    /** `handleChange`: the named field takes the value; its error, if one is
        showing, is blanked; other fields and other errors stay. */
    method Change(f: Field, value: string)
      requires Valid()
      modifies this
      ensures Valid()
      ensures formData == old(formData).With(f, value)
      ensures errors == if f in old(errors) && old(errors)[f] != "" then old(errors)[f := ""] else old(errors)
      ensures isSubmitting == old(isSubmitting) && isSubmitted == old(isSubmitted)
    {
      formData := formData.With(f, value);
      if f in errors && errors[f] != "" {
        errors := errors[f := ""];
      }
    }

    /** `handleSubmit`: a form with any error has its errors stored and is not
        sent; otherwise sending starts and the stored errors stay as they were. */
    method Submit()
      requires Valid()
      modifies this
      ensures Valid()
      ensures formData == old(formData) && isSubmitted == old(isSubmitted)
      ensures |Validate(old(formData))| > 0 ==> errors == Validate(old(formData)) && isSubmitting == old(isSubmitting)
      ensures |Validate(old(formData))| == 0 ==> errors == old(errors) && isSubmitting
    {
      var validationErrors := Validate(formData);
      if |validationErrors| > 0 {
        errors := validationErrors;
        return;
      }
      isSubmitting := true;
    }

    /** The send timer fires: the form is emptied, `inquiryType` back to
        'general', and the success message shown. */
    method SubmissionCompleted()
      requires Valid()
      modifies this
      ensures Valid()
      ensures formData == EmptyContact && !isSubmitting && isSubmitted && errors == old(errors)
    {
      isSubmitting := false;
      isSubmitted := true;
      formData := EmptyContact;
    }

    /** The success-message timer fires, or the "Send Another Message"
        button is pressed: both only hide the success message. */
    method SuccessMessageExpired()
      requires Valid()
      modifies this
      ensures Valid()
      ensures !isSubmitted
      ensures formData == old(formData) && errors == old(errors) && isSubmitting == old(isSubmitting)
    {
      isSubmitted := false;
    }
  }
}
