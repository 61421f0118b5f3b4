/**
 * The login page (`frontend/src/pages/Login.tsx`): the validation of its two fields, the
 * arguments it submits, and the form and error updates while the user types.
 */
module LoginPage {
  import opened Wrappers
  import opened Text
  import opened FormErrors

  datatype LoginForm = LoginForm(email: string, password: string)

  /** The inputs of the form, by their `name` attribute. */
  datatype Field = Email | Password

  function Key(f: Field): string {
    match f
    case Email => "email"
    case Password => "password"
  }

  function Value(form: LoginForm, f: Field): string {
    match f
    case Email => form.email
    case Password => form.password
  }

  /**
   * What the page accepts: an address the email pattern matches as typed, and any non-empty
   * password, however short.
   */
  predicate Acceptable(form: LoginForm) {
    IsEmail(form.email) && form.password != ""
  }

  /** The message of one field's check. */
  function CheckOf(form: LoginForm, f: Field): Option<FieldError> {
    match f
    case Email => EmailCheck(form.email)
    case Password => RequiredCheck(form.password)
  }

  /** The checks of `validateForm`, in the order it makes them. */
  function Checks(form: LoginForm): seq<Check> {
    FieldChecks(CheckOf(form, Email), CheckOf(form, Password))
  }

  /** The checks of the two fields with the given messages. */
  function FieldChecks(email: Option<FieldError>, password: Option<FieldError>): seq<Check> {
    [Check(Key(Email), email), Check(Key(Password), password)]
  }

  /**
   * `validateForm`: the two checks noted one after the other, the form being valid when the
   * record stays empty, which is when the page accepts it.
   */
  method ValidateForm(form: LoginForm) returns (errors: Errors, valid: bool)
    ensures errors == Validated(Checks(form))
    ensures valid <==> errors == map[]
    ensures valid <==> Acceptable(form)
  {
    var email, password := EmailCheck(form.email), RequiredCheck(form.password);
    errors := map[];
    errors := Note(errors, Key(Email), email);
    errors := Note(errors, Key(Password), password);
    FieldChecksInOrder(email, password);
    valid := |errors| == 0;
    ValidatedEmpty(Checks(form));
  }

  /** The record of the two checks is their messages noted in the page's order. */
  lemma FieldChecksInOrder(email: Option<FieldError>, password: Option<FieldError>)
    ensures Validated(FieldChecks(email, password))
         == Noted(Noted(map[], Check(Key(Email), email)), Check(Key(Password), password))
  {
    ValidatedTwo(Check(Key(Email), email), Check(Key(Password), password));
  }

  /** Each field's entry in the record is exactly the message of that field's check. */
  lemma ValidateReports(form: LoginForm, f: Field)
    ensures Reported(Validated(Checks(form)), Key(f), CheckOf(form, f))
  {
    FieldsDistinct(CheckOf(form, Email), CheckOf(form, Password));
    ValidatedReports(Checks(form), if f == Email then 0 else 1);
  }

  /** The two names differ. */
  lemma FieldsDistinct(email: Option<FieldError>, password: Option<FieldError>)
    ensures DistinctFields(FieldChecks(email, password))
  {
    var checks := FieldChecks(email, password);
    assert |checks[0].field| == 5 && |checks[1].field| == 8;
  }

  /** No field but the form's two appears in the record. */
  lemma ValidateKeys(form: LoginForm, field: string)
    requires field in Validated(Checks(form))
    ensures field == Key(Email) || field == Key(Password)
  {
    FieldChecksKeys(CheckOf(form, Email), CheckOf(form, Password), field);
  }

  lemma FieldChecksKeys(email: Option<FieldError>, password: Option<FieldError>, field: string)
    requires field in Validated(FieldChecks(email, password))
    ensures field == Key(Email) || field == Key(Password)
  {
    var checks := FieldChecks(email, password);
    ValidatedKeys(checks, field);
    var j :| 0 <= j < |checks| && checks[j].field == field && checks[j].error.Some?;
    assert checks[j].field == Key([Email, Password][j]);
  }

  /**
   * The address is tested as typed, not trimmed: a matching address with a space before or
   * after it gets the format message, although the page would submit it trimmed.
   */
  lemma SurroundingSpaceRejected(email: string)
    requires IsEmail(email)
    ensures EmailCheck(" " + email) == Some(BadFormat)
    ensures EmailCheck(email + " ") == Some(BadFormat)
  {
    var before, after := " " + email, email + " ";
    var at := IndexOf(email, '@');
    assert before[1 + at] == '@' && after[at] == '@';
    TrimEmpty(before);
    TrimEmpty(after);
    assert !Plain(before[0]) && !Plain(after[|after| - 1]);
  }

  /** `login(email.trim(), password)`: the arguments the page submits. */
  datatype Credentials = Credentials(email: string, password: string)

  function SubmitArguments(form: LoginForm): Credentials {
    Credentials(Trim(form.email), form.password)
  }

  /** An accepted form is submitted exactly as typed: the address needs no trimming and the password is never trimmed. */
  lemma AcceptedSubmission(form: LoginForm)
    requires Acceptable(form)
    ensures SubmitArguments(form) == Credentials(form.email, form.password)
  {
    EmailIsTrimmed(form.email);
  }

  /** `handleChange`: the edited field takes the new value and its error, if shown, is cleared. */
  function HandleChange(form: LoginForm, errors: Errors, field: Field, value: string): (r: (LoginForm, Errors))
    ensures forall g :: Value(r.0, g) == if g == field then value else Value(form, g)
    ensures r.1 == ClearError(errors, Key(field))
  {
    var updated := match field
      case Email => form.(email := value)
      case Password => form.(password := value);
    (updated, ClearError(errors, Key(field)))
  }
}
