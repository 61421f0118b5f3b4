/**
 * The new-transaction dialog (`frontend/src/components/NewTransactionModal.tsx`): the
 * validation of amount, category and date, the category it submits, the suggested category
 * list, and the state changes of editing a field, closing and submitting.
 */
module NewTransactionModal {
  import opened Wrappers
  import opened Collections
  import opened Ledger
  import opened FormErrors

  /** The dialog offers only income and expense. */
  type FormKind = k: Kind | !k.Other? witness Expense

  /** `CreateTransactionData` as the dialog holds it; an absent description is the empty string. */
  datatype ModalForm = ModalForm(kind: FormKind, amount: real, category: string, description: string, date: string)

  /** The dialog's state: the form, the error record, the custom category and whether its input is shown. */
  datatype ModalState = ModalState(form: ModalForm, errors: Errors, customCategory: string, showCustomCategory: bool)

  // ---------------------------------------------------------------- defaults

  /** The suggested categories of each type, in the order the dialog lists them. */
  function Defaults(kind: FormKind): seq<string> {
    if kind == Income then
      ["Salário", "Freelance", "Investimentos", "Venda", "Presente", "Outros"]
    else
      ["Alimentação", "Transporte", "Moradia", "Saúde", "Educação", "Lazer", "Roupas", "Tecnologia", "Outros"]
  }

  /**
   * `getSuggestedCategories`: the type's defaults followed by the user's categories that are
   * not among them, in the user's order.
   */
  function SuggestedCategories(kind: FormKind, categories: seq<string>): (r: seq<string>)
    ensures |r| >= |Defaults(kind)| && r[..|Defaults(kind)|] == Defaults(kind)
    ensures forall i :: |Defaults(kind)| <= i < |r| ==> r[i] !in Defaults(kind)
  {
    var defaults := Defaults(kind);
    defaults + Filter(categories, c => c !in defaults)
  }

  /** Every suggestion is a default or one of the user's categories, and every user category is suggested. */
  lemma SuggestionsCover(kind: FormKind, categories: seq<string>, c: string)
    ensures c in SuggestedCategories(kind, categories) <==> c in Defaults(kind) || c in categories
  {
    var defaults := Defaults(kind);
    var p := (x: string) => x !in defaults;
    var user := Filter(categories, p);
    assert SuggestedCategories(kind, categories) == defaults + user;
    if c in user {
      FilterSubset(categories, p);
      assert c in multiset(user);
    }
    if c in categories && c !in defaults {
      var i :| 0 <= i < |categories| && categories[i] == c;
      FilterKeeps(categories, p, i);
    }
  }

  /** The user's part of the list keeps the user's order: it is what filtering the defaults out leaves. */
  lemma SuggestionsKeepUserOrder(kind: FormKind, categories: seq<string>)
    ensures SuggestedCategories(kind, categories)[|Defaults(kind)|..] == Filter(categories, c => c !in Defaults(kind))
    ensures (forall c :: c in categories ==> c !in Defaults(kind))
        ==> SuggestedCategories(kind, categories) == Defaults(kind) + categories
  {
    var p := (c: string) => c !in Defaults(kind);
    if forall c :: c in categories ==> c !in Defaults(kind) {
      FilterAll(categories, p);
    }
  }

  // ---------------------------------------------------------------- validation

  /** The amount's message: `!amount || amount <= 0`, which for a number read with `|| 0` is a non-positive amount. */
  function AmountCheck(amount: real): (e: Option<FieldError>)
    ensures e.Some? <==> amount <= 0.0
    ensures e.Some? ==> e.value == NotPositive
  {
    if amount == 0.0 || amount <= 0.0 then Some(NotPositive) else None
  }

  /** The category's message: required when neither the chosen nor the custom category is given. */
  function CategoryCheck(category: string, customCategory: string): (e: Option<FieldError>)
    ensures e.Some? <==> category == "" && customCategory == ""
    ensures e.Some? ==> e.value == Required
  {
    if category == "" && customCategory == "" then Some(Required) else None
  }

  /** What the dialog accepts: a positive amount, some category and a date. */
  predicate Acceptable(s: ModalState) {
    s.form.amount > 0.0 && (s.form.category != "" || s.customCategory != "") && s.form.date != ""
  }

  /** The fields the dialog checks, by their key in the record. */
  datatype Field = Type | Amount | Category | Description | Date

  function Key(f: Field): string {
    match f
    case Type => "type"
    case Amount => "amount"
    case Category => "category"
    case Description => "description"
    case Date => "date"
  }

  /** The checks of the three fields with the given messages. */
  function FieldChecks(amount: Option<FieldError>, category: Option<FieldError>, date: Option<FieldError>): seq<Check> {
    [Check(Key(Amount), amount), Check(Key(Category), category), Check(Key(Date), date)]
  }

  /** The checks of `validateForm`, in the order it makes them. */
  function Checks(s: ModalState): seq<Check> {
    FieldChecks(AmountCheck(s.form.amount), CategoryCheck(s.form.category, s.customCategory), RequiredCheck(s.form.date))
  }

  /** The three names differ, already in length. */
  lemma FieldsDistinct(amount: Option<FieldError>, category: Option<FieldError>, date: Option<FieldError>)
    ensures DistinctFields(FieldChecks(amount, category, date))
  {
    var checks := FieldChecks(amount, category, date);
    assert |checks[0].field| == 6 && |checks[1].field| == 8 && |checks[2].field| == 4;
  }

  /** The record of the three checks is their messages noted in the dialog's order. */
  lemma FieldChecksInOrder(amount: Option<FieldError>, category: Option<FieldError>, date: Option<FieldError>)
    ensures Validated(FieldChecks(amount, category, date))
         == Noted(Noted(Noted(map[], Check(Key(Amount), amount)), Check(Key(Category), category)),
                  Check(Key(Date), date))
  {
    ValidatedThree(Check(Key(Amount), amount), Check(Key(Category), category), Check(Key(Date), date));
  }

  /**
   * `validateForm`: the three checks noted one after the other, the form being valid when the
   * record stays empty, which is when the dialog accepts it.
   */
  method ValidateForm(s: ModalState) returns (errors: Errors, valid: bool)
    ensures errors == Validated(Checks(s))
    ensures valid <==> errors == map[]
    ensures valid <==> Acceptable(s)
  {
    var amount, category, date :=
      AmountCheck(s.form.amount), CategoryCheck(s.form.category, s.customCategory), RequiredCheck(s.form.date);
    errors := map[];
    errors := Note(errors, Key(Amount), amount);
    errors := Note(errors, Key(Category), category);
    errors := Note(errors, Key(Date), date);
    FieldChecksInOrder(amount, category, date);
    valid := |errors| == 0;
    ValidatedEmpty(Checks(s));
  }

  /** The amount, category and date entries are exactly their checks' messages; no other field appears. */
  lemma ValidateReports(s: ModalState, field: string)
    ensures Reported(Validated(Checks(s)), Key(Amount), AmountCheck(s.form.amount))
    ensures Reported(Validated(Checks(s)), Key(Category), CategoryCheck(s.form.category, s.customCategory))
    ensures Reported(Validated(Checks(s)), Key(Date), RequiredCheck(s.form.date))
    ensures field in Validated(Checks(s)) ==> field == Key(Amount) || field == Key(Category) || field == Key(Date)
  {
    var checks := Checks(s);
    FieldsDistinct(checks[0].error, checks[1].error, checks[2].error);
    ValidatedReports(checks, 0);
    ValidatedReports(checks, 1);
    ValidatedReports(checks, 2);
    if field in Validated(checks) {
      ValidatedKeys(checks, field);
    }
  }

  // ---------------------------------------------------------------- submitting

  /** `customCategory || formData.category`: the custom category wins when it is given. */
  function SubmittedCategory(s: ModalState): (c: string)
    ensures s.customCategory != "" ==> c == s.customCategory
    ensures s.customCategory == "" ==> c == s.form.category
  {
    if s.customCategory != "" then s.customCategory else s.form.category
  }

  /**
   * The data handed to `onSubmit`: the form with the submitted category and the date converted
   * to an ISO timestamp. The conversion of the form's date and the current time are inputs.
   */
  function SubmitData(s: ModalState, isoOfDate: string, isoNow: string): ModalForm {
    s.form.(category := SubmittedCategory(s), date := if s.form.date != "" then isoOfDate else isoNow)
  }

  /** An accepted form is submitted with its type, amount and description, a non-empty category and its own date. */
  lemma AcceptedSubmission(s: ModalState, isoOfDate: string, isoNow: string)
    requires Acceptable(s)
    ensures var d := SubmitData(s, isoOfDate, isoNow);
      && d.kind == s.form.kind && d.amount == s.form.amount && d.description == s.form.description
      && d.category != "" && d.date == isoOfDate
  {
  }

  /**
   * `handleClose`: an expense of zero with no category, no description and today's date, no
   * custom category, its input hidden, and no errors.
   */
  function HandleClose(today: string): (r: ModalState)
    ensures r.form == ModalForm(Expense, 0.0, "", "", today)
    ensures r.errors == map[] && r.customCategory == "" && !r.showCustomCategory
  {
    ModalState(ModalForm(Expense, 0.0, "", "", today), map[], "", false)
  }

  /** A freshly reset dialog cannot be submitted: its amount and category are reported. */
  lemma ResetIsNotAcceptable(today: string)
    ensures !Acceptable(HandleClose(today))
    ensures Key(Amount) in Validated(Checks(HandleClose(today)))
    ensures Key(Category) in Validated(Checks(HandleClose(today)))
  {
    ValidateReports(HandleClose(today), "");
  }

  /**
   * `handleSubmit`: an invalid form stays open with its messages shown and nothing is sent;
   * a valid one has its errors cleared and its data sent, and the dialog is reset when
   * `onSubmit` succeeds. Whether it succeeds is an input.
   */
  function HandleSubmit(s: ModalState, isoOfDate: string, isoNow: string, today: string, succeeded: bool)
    : (r: (ModalState, Option<ModalForm>))
  {
    var errors := Validated(Checks(s));
    if errors != map[] then (s.(errors := errors), None)
    else
      var sent := Some(SubmitData(s, isoOfDate, isoNow));
      if succeeded then (HandleClose(today), sent) else (s.(errors := map[]), sent)
  }

  /** Data is sent exactly when the dialog accepts the form; otherwise the form is kept and the messages shown. */
  lemma SubmitSendsIffAcceptable(s: ModalState, isoOfDate: string, isoNow: string, today: string, succeeded: bool)
    ensures var (next, sent) := HandleSubmit(s, isoOfDate, isoNow, today, succeeded);
      && (sent.Some? <==> Acceptable(s))
      && (sent.Some? ==> sent.value == SubmitData(s, isoOfDate, isoNow))
      && (sent.None? ==> next.form == s.form && next.errors != map[])
      && (sent.Some? && succeeded ==> next == HandleClose(today))
  {
    ValidatedEmpty(Checks(s));
    var checks := Checks(s);
    assert (forall i :: 0 <= i < |checks| ==> checks[i].error.None?)
        <==> checks[0].error.None? && checks[1].error.None? && checks[2].error.None?;
  }

  // ---------------------------------------------------------------- editing

  /** One call of `handleInputChange`: the field and the value it is given. */
  datatype Change =
    | SetType(kind: FormKind)
    | SetAmount(amount: real)
    | SetCategory(category: string)
    | SetDescription(description: string)
    | SetDate(date: string)

  function FieldOf(c: Change): Field {
    match c
    case SetType(_) => Type
    case SetAmount(_) => Amount
    case SetCategory(_) => Category
    case SetDescription(_) => Description
    case SetDate(_) => Date
  }

  /** The value of one field of the form. */
  datatype FieldValue = KindValue(kind: FormKind) | AmountValue(amount: real) | TextValue(text: string)

  function Get(form: ModalForm, f: Field): FieldValue {
    match f
    case Type => KindValue(form.kind)
    case Amount => AmountValue(form.amount)
    case Category => TextValue(form.category)
    case Description => TextValue(form.description)
    case Date => TextValue(form.date)
  }

  function ValueOf(c: Change): FieldValue {
    match c
    case SetType(k) => KindValue(k)
    case SetAmount(x) => AmountValue(x)
    case SetCategory(t) => TextValue(t)
    case SetDescription(t) => TextValue(t)
    case SetDate(t) => TextValue(t)
  }

  /** `handleInputChange`: the named field takes the value and its error, if shown, is cleared. */
  function HandleInputChange(s: ModalState, c: Change): (r: ModalState)
    ensures forall g :: Get(r.form, g) == if g == FieldOf(c) then ValueOf(c) else Get(s.form, g)
    ensures r.errors == ClearError(s.errors, Key(FieldOf(c)))
    ensures r.customCategory == s.customCategory && r.showCustomCategory == s.showCustomCategory
  {
    var form := match c
      case SetType(k) => s.form.(kind := k)
      case SetAmount(x) => s.form.(amount := x)
      case SetCategory(t) => s.form.(category := t)
      case SetDescription(t) => s.form.(description := t)
      case SetDate(t) => s.form.(date := t);
    s.(form := form, errors := ClearError(s.errors, Key(FieldOf(c))))
  }

  /** Editing one field leaves every other field's message as it was. */
  lemma ChangeKeepsOtherErrors(s: ModalState, c: Change, other: Field)
    requires other != FieldOf(c) && Key(other) in s.errors
    ensures var r := HandleInputChange(s, c);
      Key(other) in r.errors && r.errors[Key(other)] == s.errors[Key(other)]
  {
    var lengths := map[Type := 4, Amount := 6, Category := 8, Description := 11, Date := 4];
    if other != Type && FieldOf(c) != Type {
      assert |Key(other)| == lengths[other] && |Key(FieldOf(c))| == lengths[FieldOf(c)];
    }
  }
}
