/**
 * The registration page (`frontend/src/pages/Register.tsx`): the validation of its four
 * fields, the arguments it submits, and the form and error updates while the user types.
 */
module RegisterPage {
  import opened Wrappers
  import opened Text
  import opened FormErrors

  datatype RegisterForm = RegisterForm(name: string, email: string, password: string, confirmPassword: string)

  /** The inputs of the form, by their `name` attribute. */
  datatype Field = Name | Email | Password | ConfirmPassword

  function Key(f: Field): string {
    match f
    case Name => "name"
    case Email => "email"
    case Password => "password"
    case ConfirmPassword => "confirmPassword"
  }

  function Value(form: RegisterForm, f: Field): string {
    match f
    case Name => form.name
    case Email => form.email
    case Password => form.password
    case ConfirmPassword => form.confirmPassword
  }

  /**
   * What the page accepts: a name of at least two characters once trimmed, an address the
   * email pattern matches, a password of at least six characters and a matching confirmation.
   */
  predicate Acceptable(form: RegisterForm) {
    |Trim(form.name)| >= 2 && IsEmail(form.email) && |form.password| >= 6 && form.confirmPassword == form.password
  }

  /** The page accepts a form exactly when no field has a message. */
  lemma AcceptableIff(form: RegisterForm)
    ensures Acceptable(form)
        <==> NameCheck(form.name).None? && EmailCheck(form.email).None?
             && PasswordCheck(form.password).None? && ConfirmCheck(form.password, form.confirmPassword).None?
  {
  }

  /** The name's message: required when blank once trimmed, otherwise too short under two characters. */
  function NameCheck(name: string): (e: Option<FieldError>)
    ensures e.Some? <==> |Trim(name)| < 2
  {
    if Trim(name) == "" then Some(Required)
    else if |Trim(name)| < 2 then Some(TooShort)
    else None
  }

  /** The password's message: required when empty, otherwise too short under six characters. */
  function PasswordCheck(password: string): (e: Option<FieldError>)
    ensures e.Some? <==> |password| < 6
  {
    if password == "" then Some(Required)
    else if |password| < 6 then Some(TooShort)
    else None
  }

  /** The confirmation's message: required when empty, otherwise it must equal the password. */
  function ConfirmCheck(password: string, confirmPassword: string): (e: Option<FieldError>)
    ensures e.Some? <==> confirmPassword == "" || confirmPassword != password
  {
    if confirmPassword == "" then Some(Required)
    else if password != confirmPassword then Some(Mismatch)
    else None
  }

  /** The message of one field's check. */
  function CheckOf(form: RegisterForm, f: Field): Option<FieldError> {
    match f
    case Name => NameCheck(form.name)
    case Email => EmailCheck(form.email)
    case Password => PasswordCheck(form.password)
    case ConfirmPassword => ConfirmCheck(form.password, form.confirmPassword)
  }

  /** The checks of `validateForm`, in the order it makes them. */
  function Checks(form: RegisterForm): seq<Check> {
    FieldChecks(CheckOf(form, Name), CheckOf(form, Email), CheckOf(form, Password), CheckOf(form, ConfirmPassword))
  }

  /** The checks of the four fields with the given messages. */
  function FieldChecks(name: Option<FieldError>, email: Option<FieldError>, password: Option<FieldError>,
                       confirm: Option<FieldError>): seq<Check> {
    [Check(Key(Name), name), Check(Key(Email), email), Check(Key(Password), password),
     Check(Key(ConfirmPassword), confirm)]
  }

  /** The four names differ, already in length. */
  lemma FieldsDistinct(name: Option<FieldError>, email: Option<FieldError>, password: Option<FieldError>,
                       confirm: Option<FieldError>)
    ensures DistinctFields(FieldChecks(name, email, password, confirm))
  {
    var checks := FieldChecks(name, email, password, confirm);
    var lengths := [4, 5, 8, 15];
    forall i | 0 <= i < 4
      ensures |checks[i].field| == lengths[i]
    {
    }
  }

  /**
   * `validateForm`: the checks noted one after the other, the form being valid when the
   * record stays empty, which is when the page accepts it.
   */
  method ValidateForm(form: RegisterForm) returns (errors: Errors, valid: bool)
    ensures errors == Validated(Checks(form))
    ensures valid <==> errors == map[]
    ensures valid <==> Acceptable(form)
  {
    var name, email, password, confirm :=
      NameCheck(form.name), EmailCheck(form.email), PasswordCheck(form.password),
      ConfirmCheck(form.password, form.confirmPassword);
    errors := map[];
    errors := Note(errors, Key(Name), name);
    errors := Note(errors, Key(Email), email);
    errors := Note(errors, Key(Password), password);
    errors := Note(errors, Key(ConfirmPassword), confirm);
    FieldChecksInOrder(name, email, password, confirm);
    valid := |errors| == 0;
    ValidatedEmpty(Checks(form));
    AcceptableIff(form);
  }

  /** The record of the four checks is their messages noted in the page's order. */
  lemma FieldChecksInOrder(name: Option<FieldError>, email: Option<FieldError>, password: Option<FieldError>,
                           confirm: Option<FieldError>)
    ensures Validated(FieldChecks(name, email, password, confirm))
         == Noted(Noted(Noted(Noted(map[], Check(Key(Name), name)), Check(Key(Email), email)),
                        Check(Key(Password), password)), Check(Key(ConfirmPassword), confirm))
  {
    ValidatedFour(Check(Key(Name), name), Check(Key(Email), email), Check(Key(Password), password),
                  Check(Key(ConfirmPassword), confirm));
  }

  /** Each field's entry in the record is exactly the message of that field's check. */
  lemma ValidateReports(form: RegisterForm, f: Field)
    ensures Reported(Validated(Checks(form)), Key(f), CheckOf(form, f))
  {
    FieldsDistinct(CheckOf(form, Name), CheckOf(form, Email), CheckOf(form, Password), CheckOf(form, ConfirmPassword));
    var i := match f case Name => 0 case Email => 1 case Password => 2 case ConfirmPassword => 3;
    ValidatedReports(Checks(form), i);
  }

  /** No field but the form's four appears in the record. */
  lemma ValidateKeys(form: RegisterForm, field: string)
    requires field in Validated(Checks(form))
    ensures exists f :: field == Key(f)
  {
    FieldChecksKeys(CheckOf(form, Name), CheckOf(form, Email), CheckOf(form, Password), CheckOf(form, ConfirmPassword), field);
  }

  lemma FieldChecksKeys(name: Option<FieldError>, email: Option<FieldError>, password: Option<FieldError>,
                        confirm: Option<FieldError>, field: string)
    requires field in Validated(FieldChecks(name, email, password, confirm))
    ensures exists f :: field == Key(f)
  {
    var checks := FieldChecks(name, email, password, confirm);
    ValidatedKeys(checks, field);
    var j :| 0 <= j < |checks| && checks[j].field == field && checks[j].error.Some?;
    var g := [Name, Email, Password, ConfirmPassword][j];
    assert checks[j].field == Key(g);
  }

  /** `register(name.trim(), email.trim(), password)`: the arguments the page submits. */
  datatype Submission = Submission(name: string, email: string, password: string)

  function SubmitArguments(form: RegisterForm): Submission {
    Submission(Trim(form.name), Trim(form.email), form.password)
  }

  /** An accepted form is submitted with its address unchanged and a name of at least two characters. */
  lemma AcceptedSubmission(form: RegisterForm)
    requires Acceptable(form)
    ensures SubmitArguments(form).email == form.email
    ensures |SubmitArguments(form).name| >= 2 && SubmitArguments(form).password == form.password
  {
    EmailIsTrimmed(form.email);
  }

  /** `handleChange`: the edited field takes the new value and its error, if shown, is cleared. */
  function HandleChange(form: RegisterForm, errors: Errors, field: Field, value: string): (r: (RegisterForm, Errors))
    ensures forall g :: Value(r.0, g) == if g == field then value else Value(form, g)
    ensures r.1 == ClearError(errors, Key(field))
  {
    var updated := match field
      case Name => form.(name := value)
      case Email => form.(email := value)
      case Password => form.(password := value)
      case ConfirmPassword => form.(confirmPassword := value);
    (updated, ClearError(errors, Key(field)))
  }

  /** Editing one field leaves every other field's message as it was. */
  lemma ChangeKeepsOtherErrors(form: RegisterForm, errors: Errors, field: Field, value: string, other: Field)
    requires other != field && Key(other) in errors
    ensures var r := HandleChange(form, errors, field, value);
      Key(other) in r.1 && r.1[Key(other)] == errors[Key(other)]
  {
    assert Key(other) != Key(field);
  }
}
