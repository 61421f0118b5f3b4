/**
 * What the front-end forms share: the email pattern `^[^\s@]+@[^\s@]+\.[^\s@]+$` that the
 * register and login pages test, the field-to-message error record they fill, the mapping of
 * the backend's validation details into that record, and the clearing of one field's error
 * when the user edits that field.
 */
module FormErrors {
  import opened Wrappers
  import opened Text

  // ---------------------------------------------------------------- email pattern

  /** A character of the class `[^\s@]`. */
  predicate Plain(c: char) {
    !IsSpace(c) && c != '@'
  }

  /**
   * The pattern read at fixed positions: one `@` at `i`, a `.` at `j`, at least one character
   * before the `@`, between the two and after the `.`, and every character but the `@` in `[^\s@]`.
   */
  predicate MatchesAt(s: string, i: int, j: int) {
    && 0 < i && i + 1 < j && j + 1 < |s|
    && s[i] == '@' && s[j] == '.'
    && forall k :: 0 <= k < |s| && k != i ==> Plain(s[k])
  }

  /**
   * The regular-expression test, as a scan: the first `@` has text before it, nothing else in
   * the string is white space or another `@`, and the part after the `@` has a `.` that is
   * neither its first nor its last character.
   */
  predicate IsEmail(s: string) {
    '@' in s &&
    var i := IndexOf(s, '@');
    var domain := s[i + 1..];
    && 0 < i
    && (forall k :: 0 <= k < |s| && k != i ==> Plain(s[k]))
    && |domain| >= 3 && '.' in domain[1..|domain| - 1]
  }

  /** The scan accepts exactly the strings the pattern matches. */
  lemma EmailIff(s: string)
    ensures IsEmail(s) <==> exists i, j :: MatchesAt(s, i, j)
  {
    if IsEmail(s) {
      var i := IndexOf(s, '@');
      var domain := s[i + 1..];
      var inner := domain[1..|domain| - 1];
      var d := IndexOf(inner, '.');
      assert MatchesAt(s, i, i + 2 + d);
    }
    if exists i, j :: MatchesAt(s, i, j) {
      var i, j :| MatchesAt(s, i, j);
      assert '@' in s;
      var at := IndexOf(s, '@');
      assert at == i;
      var domain := s[i + 1..];
      assert domain[1..|domain| - 1][j - i - 2] == '.';
    }
  }

  /** A matching address has no white space at either end, so trimming it changes nothing. */
  lemma EmailIsTrimmed(s: string)
    requires IsEmail(s)
    ensures Trim(s) == s && Trim(s) != ""
  {
    var i := IndexOf(s, '@');
    assert Plain(s[|s| - 1]);
    if i != 0 {
      assert Plain(s[0]);
    }
    TrimOfTrimmed(s);
  }

  /** A string that is blank after trimming never matches. */
  lemma BlankIsNoEmail(s: string)
    requires Trim(s) == ""
    ensures !IsEmail(s)
  {
    TrimEmpty(s);
  }

  // ---------------------------------------------------------------- error record

  /**
   * The message a field shows, identified by what it says; `Cleared` is the empty string the
   * pages put in place of a message the user has started to correct.
   */
  datatype FieldError =
    | Required
    | TooShort
    | BadFormat
    | Mismatch
    | NotPositive
    | Backend(message: string)
    | Cleared

  /** `Record<string, string>` of messages by field name. */
  type Errors = map<string, FieldError>

  /** A message JavaScript treats as truthy: any but the empty string. */
  predicate Shown(e: FieldError) {
    e != Cleared && !(e.Backend? && e.message == "")
  }

  /** `if (errors[field]) setErrors(prev => ({ ...prev, [field]: '' }))`. */
  function ClearError(errors: Errors, field: string): (r: Errors)
    ensures r.Keys == errors.Keys
    ensures field in r ==> !Shown(r[field])
    ensures forall k :: k in errors && k != field ==> r[k] == errors[k]
    ensures field in errors && !Shown(errors[field]) ==> r == errors
  {
    if field in errors && Shown(errors[field]) then errors[field := Cleared] else errors
  }

  /** The message of a field that only has to be filled in: required when empty. */
  function RequiredCheck(value: string): (e: Option<FieldError>)
    ensures e.Some? <==> value == ""
    ensures e.Some? ==> e.value == Required
  {
    if value == "" then Some(Required) else None
  }

  /** The address's message on both pages: required when blank once trimmed, otherwise the untrimmed value must match the pattern. */
  function EmailCheck(email: string): (e: Option<FieldError>)
    ensures e.Some? <==> !IsEmail(email)
  {
    if Trim(email) == "" then
      BlankIsNoEmail(email);
      Some(Required)
    else if !IsEmail(email) then Some(BadFormat)
    else None
  }

  /** The record holds the field's message exactly when there is one. */
  predicate Reported(errors: Errors, field: string, e: Option<FieldError>) {
    (field in errors <==> e.Some?) && (e.Some? ==> errors[field] == e.value)
  }

  /** `newErrors.field = message` when the field has a message; the record is left alone otherwise. */
  method Note(errors: Errors, field: string, e: Option<FieldError>) returns (r: Errors)
    ensures r == Noted(errors, Check(field, e))
  {
    r := errors;
    if e.Some? {
      r := r[field := e.value];
    }
  }

  /** One field's test in a `validateForm`: the field and the message it produced, if any. */
  datatype Check = Check(field: string, error: Option<FieldError>)

  function Noted(errors: Errors, c: Check): Errors {
    if c.error.Some? then errors[c.field := c.error.value] else errors
  }

  /** The record a `validateForm` builds: its checks noted one after the other, starting from `{}`. */
  function Validated(checks: seq<Check>): Errors {
    if checks == [] then map[] else Noted(Validated(checks[..|checks| - 1]), checks[|checks| - 1])
  }

  /** The record of two, three and four checks is their messages noted in order. */
  lemma ValidatedTwo(a: Check, b: Check)
    ensures Validated([a, b]) == Noted(Noted(map[], a), b)
  {
    assert [a, b][..1] == [a] && [a][..0] == [];
    assert Validated([a]) == Noted(map[], a);
  }

  lemma ValidatedThree(a: Check, b: Check, c: Check)
    ensures Validated([a, b, c]) == Noted(Noted(Noted(map[], a), b), c)
  {
    assert [a, b, c][..2] == [a, b];
    ValidatedTwo(a, b);
  }

  lemma ValidatedFour(a: Check, b: Check, c: Check, d: Check)
    ensures Validated([a, b, c, d]) == Noted(Noted(Noted(Noted(map[], a), b), c), d)
  {
    assert [a, b, c, d][..3] == [a, b, c];
    ValidatedThree(a, b, c);
  }

  /** The checks are about different fields. */
  predicate DistinctFields(checks: seq<Check>) {
    forall i, j :: 0 <= i < j < |checks| ==> checks[i].field != checks[j].field
  }

  /** The record names only fields some check produced a message for. */
  lemma {:induction false} ValidatedKeys(checks: seq<Check>, field: string)
    requires field in Validated(checks)
    ensures exists i :: 0 <= i < |checks| && checks[i].field == field && checks[i].error.Some?
  {
    var init := checks[..|checks| - 1];
    var last := checks[|checks| - 1];
    if field in Validated(init) && !(last.field == field && last.error.Some?) {
      ValidatedKeys(init, field);
      var i :| 0 <= i < |init| && init[i].field == field && init[i].error.Some?;
      assert checks[i] == init[i];
    }
  }

  /** With one check per field, every field's entry is exactly the message its check produced. */
  lemma {:induction false} ValidatedReports(checks: seq<Check>, i: nat)
    requires DistinctFields(checks) && i < |checks|
    ensures Reported(Validated(checks), checks[i].field, checks[i].error)
  {
    var init := checks[..|checks| - 1];
    if i < |checks| - 1 {
      assert DistinctFields(init) by {
        forall a, b | 0 <= a < b < |init| ensures init[a].field != init[b].field {
          assert init[a] == checks[a] && init[b] == checks[b];
        }
      }
      ValidatedReports(init, i);
      assert checks[i] == init[i];
    } else {
      if checks[i].error.None? && checks[i].field in Validated(init) {
        ValidatedKeys(init, checks[i].field);
      }
    }
  }

  /** The record is empty exactly when no check produced a message. */
  lemma ValidatedEmpty(checks: seq<Check>)
    ensures Validated(checks) == map[] <==> forall i :: 0 <= i < |checks| ==> checks[i].error.None?
  {
    if Validated(checks) != map[] {
      var field :| field in Validated(checks);
      ValidatedKeys(checks, field);
    }
    if exists i :: 0 <= i < |checks| && checks[i].error.Some? {
      var i :| 0 <= i < |checks| && checks[i].error.Some?;
      ValidatedSome(checks, i);
    }
  }

  lemma {:induction false} ValidatedSome(checks: seq<Check>, i: nat)
    requires i < |checks| && checks[i].error.Some?
    ensures checks[i].field in Validated(checks)
  {
    if i < |checks| - 1 {
      var init := checks[..|checks| - 1];
      assert checks[i] == init[i];
      ValidatedSome(init, i);
    }
  }

  // ---------------------------------------------------------------- backend details

  /** One entry of the backend's `details`: the field it is about and its message. */
  datatype Detail = Detail(field: string, message: string)

  /** The record after `details.forEach(d => newErrors[d.field] = d.message)` over the first entries. */
  function FromDetails(details: seq<Detail>): Errors {
    if details == [] then map[]
    else
      var last := details[|details| - 1];
      FromDetails(details[..|details| - 1])[last.field := Backend(last.message)]
  }

  /** The details-to-record loop of the register and login pages. */
  method DetailsToErrors(details: seq<Detail>) returns (errors: Errors)
    ensures errors == FromDetails(details)
  {
    errors := map[];
    for i := 0 to |details|
      invariant errors == FromDetails(details[..i])
    {
      assert details[..i + 1][..i] == details[..i];
      errors := errors[details[i].field := Backend(details[i].message)];
    }
    assert details[..|details|] == details;
  }

  /** The record has a key for exactly the fields some detail names. */
  lemma {:induction false} DetailsKeys(details: seq<Detail>, field: string)
    ensures field in FromDetails(details) <==> exists i :: 0 <= i < |details| && details[i].field == field
  {
    if details != [] {
      var init := details[..|details| - 1];
      DetailsKeys(init, field);
      if field in FromDetails(init) {
        var i :| 0 <= i < |init| && init[i].field == field;
        assert details[i].field == field;
      }
      if exists i :: 0 <= i < |details| && details[i].field == field {
        var i :| 0 <= i < |details| && details[i].field == field;
        if i < |init| {
          assert init[i].field == field;
        }
      }
    }
  }

  /** Each field holds the message of the last detail naming it: a later detail overrides an earlier one. */
  lemma {:induction false} DetailsLastWins(details: seq<Detail>, i: nat)
    requires i < |details|
    requires forall j :: i < j < |details| ==> details[j].field != details[i].field
    ensures details[i].field in FromDetails(details)
    ensures FromDetails(details)[details[i].field] == Backend(details[i].message)
  {
    if i < |details| - 1 {
      var init := details[..|details| - 1];
      DetailsLastWins(init, i);
    }
  }
}
