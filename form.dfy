/**
 * The contact form's data and its validation rules: the five text fields, the
 * map from field to error message that `validateForm` builds, and the
 * per-field error clearing done on each edit.
 */
module Form {
  import opened JsText
  import opened EmailPattern

  datatype Field = FirstName | LastName | Email | Company | Message

  /** The five field values, all strings. */
  datatype FormData = FormData(
    firstName: string,
    lastName: string,
    email: string,
    company: string,
    message: string)
  {
    function Get(f: Field): string
    {
      match f
      case FirstName => firstName
      case LastName => lastName
      case Email => email
      case Company => company
      case Message => message
    }

    /** `{ ...prev, [f]: v }`: field `f` replaced by `v`, the other four kept. */
    function With(f: Field, v: string): (r: FormData)
      ensures r.Get(f) == v
      ensures forall g :: g != f ==> r.Get(g) == Get(g)
    {
      match f
      case FirstName => this.(firstName := v)
      case LastName => this.(lastName := v)
      case Email => this.(email := v)
      case Company => this.(company := v)
      case Message => this.(message := v)
    }
  }

  /** The initial form, and the form after a successful submission. */
  const EmptyForm := FormData("", "", "", "", "")

  /** Field name to the message shown next to that field. */
  type Errors = map<Field, string>

  const FirstNameRequired := "First name is required"
  const LastNameRequired := "Last name is required"
  const EmailRequired := "Email is required"
  const InvalidEmail := "Please enter a valid email"
  const CompanyRequired := "Company is required"
  const MessageRequired := "Message is required"

  /** The message a blank field gets. */
  function RequiredMessage(f: Field): string
  {
    match f
    case FirstName => FirstNameRequired
    case LastName => LastNameRequired
    case Email => EmailRequired
    case Company => CompanyRequired
    case Message => MessageRequired
  }

  /**
   * The error map built by `validateForm`, one conditional entry per field in
   * source order. Every message it stores is non-empty, so each entry is shown.
   */
  function Validate(d: FormData): (errs: Errors)
    ensures AllShown(errs)
  {
    var e0: Errors := map[];
    var e1 := Require(e0, FirstName, d.firstName);
    var e2 := Require(e1, LastName, d.lastName);
    var e3 := CheckEmail(e2, d.email);
    var e4 := Require(e3, Company, d.company);
    Require(e4, Message, d.message)
  }

  /** Every message in `errs` is non-empty, so each entry is displayed. */
  predicate AllShown(errs: Errors)
  {
    forall f :: f in errs ==> errs[f] != ""
  }

  /** One `if (!value.trim()) newErrors[f] = ...` step of `validateForm`. */
  function Require(errs: Errors, f: Field, v: string): (r: Errors)
    ensures forall g :: g != f ==> (g in r <==> g in errs)
    ensures forall g :: g != f && g in errs ==> r[g] == errs[g]
    ensures f in r <==> f in errs || IsBlank(v)
    ensures IsBlank(v) ==> r[f] == RequiredMessage(f)
    ensures !IsBlank(v) && f in errs ==> r[f] == errs[f]
    ensures AllShown(errs) ==> AllShown(r)
  {
    if Trim(v) == "" then errs[f := RequiredMessage(f)] else errs
  }

  /** The email step of `validateForm`: blank first, then the pattern. */
  function CheckEmail(errs: Errors, v: string): (r: Errors)
    ensures forall g :: g != Email ==> (g in r <==> g in errs)
    ensures forall g :: g != Email && g in errs ==> r[g] == errs[g]
    ensures IsBlank(v) ==> Email in r && r[Email] == EmailRequired
    ensures !IsBlank(v) && !MatchesEmailPattern(v) ==> Email in r && r[Email] == InvalidEmail
    ensures !IsBlank(v) && MatchesEmailPattern(v) ==> r == errs
    ensures AllShown(errs) ==> AllShown(r)
  {
    if Trim(v) == "" then errs[Email := EmailRequired]
    else if !MatchesEmailPattern(v) then errs[Email := InvalidEmail]
    else errs
  }

  /** What a submittable form is: no field blank and an email of the form `x@y.z`. */
  predicate IsComplete(d: FormData)
  {
    && !IsBlank(d.firstName)
    && !IsBlank(d.lastName)
    && !IsBlank(d.email)
    && !IsBlank(d.company)
    && !IsBlank(d.message)
    && HasEmailWitness(d.email)
  }

  /**
   * For first name, last name, company and message: the field has an error
   * exactly when its value is blank, and the error is that field's
   * "... is required" message.
   */
  lemma ValidateRequiredField(d: FormData, f: Field)
    requires f != Email
    ensures f in Validate(d) <==> IsBlank(d.Get(f))
    ensures f in Validate(d) ==> Validate(d)[f] == RequiredMessage(f)
  {
  }

  /**
   * The email field has "Email is required" exactly when it is blank and
   * "Please enter a valid email" exactly when it is not blank and no part of
   * it has the form `x@y.z`; it has no error otherwise.
   */
  lemma ValidateEmailField(d: FormData)
    ensures Email in Validate(d) <==> IsBlank(d.email) || !HasEmailWitness(d.email)
    ensures Email in Validate(d) ==> Validate(d)[Email] in {EmailRequired, InvalidEmail}
    ensures Email in Validate(d) && Validate(d)[Email] == EmailRequired <==> IsBlank(d.email)
    ensures Email in Validate(d) && Validate(d)[Email] == InvalidEmail
            <==> !IsBlank(d.email) && !HasEmailWitness(d.email)
  {
    MatchesEmailPatternIffWitness(d.email);
  }

  /** `validateForm` returns true (no key in the map) exactly for complete forms. */
  lemma ValidateEmptyIffComplete(d: FormData)
    ensures |Validate(d)| == 0 <==> IsComplete(d)
  {
    MatchesEmailPatternIffWitness(d.email);
    if |Validate(d)| == 0 {
      forall f | f != Email ensures !IsBlank(d.Get(f)) {
        ValidateRequiredField(d, f);
      }
      assert !IsBlank(d.firstName) && !IsBlank(d.lastName);
      assert !IsBlank(d.company) && !IsBlank(d.message);
    } else {
      var f :| f in Validate(d);
      if f == Email {
        ValidateEmailField(d);
      } else {
        ValidateRequiredField(d, f);
        assert IsBlank(d.Get(f));
      }
    }
  }

  /** A JavaScript truthiness test `errors[f]`: present and non-empty. */
  predicate HasError(errs: Errors, f: Field)
  {
    f in errs && errs[f] != ""
  }

  /**
   * The error-map half of `handleInputChange`: a shown error on `f` is
   * overwritten with the empty string (the key stays); every other entry, and
   * the whole map when `f` shows no error, is left as it was.
   */
  function ClearError(errs: Errors, f: Field): (r: Errors)
    ensures r.Keys == errs.Keys
    ensures !HasError(r, f)
    ensures forall g :: g != f && g in errs ==> r[g] == errs[g]
    ensures !HasError(errs, f) ==> r == errs
  {
    if HasError(errs, f) then errs[f := ""] else errs
  }

  /** The all-blank form gets five errors, each field its own required message. */
  lemma ValidateEmptyForm()
    ensures Validate(EmptyForm) == map[
      FirstName := FirstNameRequired, LastName := LastNameRequired, Email := EmailRequired,
      Company := CompanyRequired, Message := MessageRequired]
  {
  }

  /** A sample complete form. */
  const JohnDoe := FormData("John", "Doe", "john@example.com", "Acme", "Hi")

  /** Filled fields and `john@example.com`: no errors. */
  lemma ValidateJohnDoe()
    ensures Validate(JohnDoe) == map[]
  {
    assert !IsWhitespace('J') && !IsWhitespace('D') && !IsWhitespace('j');
    assert !IsWhitespace('A') && !IsWhitespace('H');
    assert JohnDoe.firstName[0] == 'J' && JohnDoe.lastName[0] == 'D' && JohnDoe.email[0] == 'j';
    assert JohnDoe.company[0] == 'A' && JohnDoe.message[0] == 'H';
    assert EmailWitness(JohnDoe.email, 4, 12);
    MatchesEmailPatternIffWitness(JohnDoe.email);
    ValidateEmptyIffComplete(JohnDoe);
  }

  /** Filled fields and the email `not-an-email`: only the invalid-email error. */
  lemma ValidateNotAnEmail()
    ensures Validate(JohnDoe.(email := "not-an-email")) == map[Email := InvalidEmail]
  {
    var d := JohnDoe.(email := "not-an-email");
    assert !IsWhitespace('J') && !IsWhitespace('D') && !IsWhitespace('n');
    assert !IsWhitespace('A') && !IsWhitespace('H');
    assert d.firstName[0] == 'J' && d.lastName[0] == 'D' && d.email[0] == 'n';
    assert d.company[0] == 'A' && d.message[0] == 'H';
    NoAtNoMatch(d.email);
    MatchesEmailPatternIffWitness(d.email);
    ValidateRequiredField(d, FirstName);
    ValidateRequiredField(d, LastName);
    ValidateRequiredField(d, Company);
    ValidateRequiredField(d, Message);
    ValidateEmailField(d);
    var v := Validate(d);
    assert v.Keys == {Email};
  }
}
