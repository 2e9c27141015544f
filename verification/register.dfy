/** The "Cadastro" screen: the form schema, the guards that must pass before a transaction is
    built, and the append of the new record to the user's stored list. */
module Register {
  import opened Finance
  import opened RecordStore

  // ---------------------------------------------------------------------------------------------
  // Form schema

  /** The amount field after the schema's cast to a number, in cents. */
  datatype AmountInput = Missing | NotNumeric | Numeric(value: int)

  /** One message per field, as the schema reports them. */
  datatype FieldError = NameRequired | AmountRequired | AmountNotNumeric | AmountNotPositive

  type PositiveAmount = n: nat | 0 < n witness 1

  /** The values `handleRegister` receives once the schema has accepted the form. */
  datatype FormData = FormData(name: string, amount: PositiveAmount)

  datatype Validated = Valid(form: FormData) | Invalid(errors: set<FieldError>)

  /** The schema: a name is required, and the amount must be present, numeric and strictly positive. */
  function Validate(name: string, amount: AmountInput): (r: Validated)
    ensures r.Valid? <==> name != "" && amount.Numeric? && amount.value > 0
    ensures r.Valid? ==> r.form.name == name && r.form.amount == amount.value
    ensures r.Invalid? ==> r.errors != {}
    ensures r.Invalid? ==> (NameRequired in r.errors <==> name == "")
    ensures r.Invalid? ==> (AmountRequired in r.errors <==> amount.Missing?)
    ensures r.Invalid? ==> (AmountNotNumeric in r.errors <==> amount.NotNumeric?)
    ensures r.Invalid? ==> (AmountNotPositive in r.errors <==> amount.Numeric? && amount.value <= 0)
  {
    var nameErrors := if name == "" then {NameRequired} else {};
    var amountErrors := match amount
      case Missing => {AmountRequired}
      case NotNumeric => {AmountNotNumeric}
      case Numeric(v) => if v <= 0 then {AmountNotPositive} else {};
    if nameErrors + amountErrors == {} then Valid(FormData(name, amount.value))
    else Invalid(nameErrors + amountErrors)
  }

  // ---------------------------------------------------------------------------------------------
  // Guards and the new record

  /** The category the form holds; the placeholder until the user picks one. */
  datatype SelectedCategory = SelectedCategory(key: string, name: string)

  const PlaceholderKey: string := "category"
  const Placeholder: SelectedCategory := SelectedCategory(PlaceholderKey, "Categoria")

  const SelectTypeAlert: string := "Selecione o tipo da transação"
  const SelectCategoryAlert: string := "Selecione a Categoria"

  /** The record built from the form: its name and amount, the chosen type, and the chosen
      category's key (not its display name). The id and the timestamp are supplied by the caller. */
  function NewTransaction(form: FormData, kind: TransactionType, category: SelectedCategory, id: string, now: MonthYear): (t: Transaction)
    ensures t.name == form.name && t.amount == form.amount && t.kind == kind
    ensures t.category == category.key && t.id == id && t.date == now
  {
    Transaction(id, form.name, form.amount, kind, category.key, now)
  }

  /** The guards of `handleRegister` as written: the category guard compares the category's NAME
      with `category`, a value the placeholder's name never has. */
  function NewRecordAsWritten(transactionType: Option<TransactionType>, category: SelectedCategory, form: FormData, id: string, now: MonthYear)
    : (r: Result<Transaction>)
    ensures transactionType.None? ==> r == Failure(SelectTypeAlert)
    ensures transactionType.Some? && category.name == PlaceholderKey ==> r == Failure(SelectCategoryAlert)
    ensures r.Success? <==> transactionType.Some? && category.name != PlaceholderKey
    ensures r.Success? ==> r.value == NewTransaction(form, transactionType.value, category, id, now)
  {
    if transactionType.None? then Failure(SelectTypeAlert)
    else if category.name == PlaceholderKey then Failure(SelectCategoryAlert)
    else Success(NewTransaction(form, transactionType.value, category, id, now))
  }

  /** As written, a form whose category was never chosen passes the category guard and the record is
      filed under the placeholder key; the corrected guard refuses it with the category alert. */
  lemma PlaceholderPassesGuardAsWritten(kind: TransactionType, form: FormData, id: string, now: MonthYear)
    ensures NewRecordAsWritten(Some(kind), Placeholder, form, id, now).Success?
    ensures NewRecordAsWritten(Some(kind), Placeholder, form, id, now).value.category == PlaceholderKey
    ensures NewRecord(Some(kind), Placeholder, form, id, now) == Failure(SelectCategoryAlert)
  {
  }

  /** The guards of `handleRegister` with the category guard testing the placeholder's key: a type
      must be chosen first, then a category; only then is the record built. */
  function NewRecord(transactionType: Option<TransactionType>, category: SelectedCategory, form: FormData, id: string, now: MonthYear)
    : (r: Result<Transaction>)
    ensures transactionType.None? ==> r == Failure(SelectTypeAlert)
    ensures transactionType.Some? && category.key == PlaceholderKey ==> r == Failure(SelectCategoryAlert)
    ensures r.Success? <==> transactionType.Some? && category.key != PlaceholderKey
    ensures r.Success? ==> r.value == NewTransaction(form, transactionType.value, category, id, now)
  {
    if transactionType.None? then Failure(SelectTypeAlert)
    else if category.key == PlaceholderKey then Failure(SelectCategoryAlert)
    else Success(NewTransaction(form, transactionType.value, category, id, now))
  }

  /** Records this screen stores: a positive amount and a category that was actually chosen. */
  ghost predicate WellFormedRecords(records: seq<Transaction>)
  {
    forall t :: t in records ==> t.amount > 0 && t.category != PlaceholderKey
  }

  /** A record built past the guards is well formed, so saving it keeps a well-formed list well formed. */
  lemma SavedRecordWellFormed(storage: Storage, userId: string, transactionType: Option<TransactionType>,
                              category: SelectedCategory, form: FormData, id: string, now: MonthYear)
    requires NewRecord(transactionType, category, form, id, now).Success?
    ensures WellFormedRecords(Load(storage, userId)) ==>
              WellFormedRecords(Load(Append(storage, userId, NewRecord(transactionType, category, form, id, now).value), userId))
  {
  }

  // ---------------------------------------------------------------------------------------------
  // The screen state

  datatype SubmitOutcome = InvalidFields(errors: set<FieldError>) | Alerted(message: string) | Saved(record: Transaction)

  /** The screen's state: the two form fields, the chosen type and category, and the device storage
      the screen writes to, for the signed-in user. */
  class RegisterScreen {
    const userId: string
    var name: string
    var amount: AmountInput
    var transactionType: Option<TransactionType>
    var category: SelectedCategory
    var storage: Storage

    /** A fresh form: empty fields, no type, the placeholder category. */
    constructor (userId: string, storage: Storage)
      ensures this.userId == userId && this.storage == storage
      ensures name == "" && amount == Missing && transactionType == None && category == Placeholder
    {
      this.userId := userId;
      this.storage := storage;
      name := "";
      amount := Missing;
      transactionType := None;
      category := Placeholder;
    }

    /** Typing into the name field. */
    method EditName(value: string)
      modifies this
      ensures name == value
      ensures amount == old(amount) && transactionType == old(transactionType)
      ensures category == old(category) && storage == old(storage)
    {
      name := value;
    }

    /** Typing into the amount field. */
    method EditAmount(value: AmountInput)
      modifies this
      ensures amount == value
      ensures name == old(name) && transactionType == old(transactionType)
      ensures category == old(category) && storage == old(storage)
    {
      amount := value;
    }

    /** The income/outcome buttons. */
    method HandleTransactionsTypesSelect(kind: TransactionType)
      modifies this
      ensures transactionType == Some(kind)
      ensures name == old(name) && amount == old(amount)
      ensures category == old(category) && storage == old(storage)
    {
      transactionType := Some(kind);
    }

    /** The category picker's callback. */
    method SetCategory(chosen: SelectedCategory)
      modifies this
      ensures category == chosen
      ensures name == old(name) && amount == old(amount)
      ensures transactionType == old(transactionType) && storage == old(storage)
    {
      category := chosen;
    }

    /** Registers a validated form. A refused attempt changes nothing and reports the alert; a
        successful one appends the record to the user's list and resets the form. */
    method HandleRegister(form: FormData, id: string, now: MonthYear) returns (outcome: SubmitOutcome)
      modifies this
      ensures outcome.Alerted? || outcome.Saved?
      ensures var built := NewRecord(old(transactionType), old(category), form, id, now);
              if built.Failure? then
                outcome == Alerted(built.error)
                && name == old(name) && amount == old(amount) && transactionType == old(transactionType)
                && category == old(category) && storage == old(storage)
              else
                outcome == Saved(built.value)
                && storage == Append(old(storage), userId, built.value)
                && name == "" && amount == Missing && transactionType == None && category == Placeholder
      ensures WellFormedRecords(Load(old(storage), userId)) ==> WellFormedRecords(Load(storage, userId))
    {
      var built := NewRecord(transactionType, category, form, id, now);
      if built.Failure? {
        return Alerted(built.error);
      }
      var newTransaction := built.value;
      SavedRecordWellFormed(storage, userId, transactionType, category, form, id, now);
      storage := Append(storage, userId, newTransaction);
      name, amount := "", Missing;
      transactionType := None;
      category := Placeholder;
      outcome := Saved(newTransaction);
    }

    /** The submit button: the schema runs first; only a valid form reaches `HandleRegister`. */
    method Submit(id: string, now: MonthYear) returns (outcome: SubmitOutcome)
      modifies this
      ensures var v := Validate(old(name), old(amount));
              v.Invalid? ==>
                outcome == InvalidFields(v.errors)
                && name == old(name) && amount == old(amount) && transactionType == old(transactionType)
                && category == old(category) && storage == old(storage)
      ensures var v := Validate(old(name), old(amount));
              v.Valid? ==>
                var built := NewRecord(old(transactionType), old(category), v.form, id, now);
                if built.Failure? then
                  outcome == Alerted(built.error)
                  && name == old(name) && amount == old(amount) && transactionType == old(transactionType)
                  && category == old(category) && storage == old(storage)
                else
                  outcome == Saved(built.value)
                  && storage == Append(old(storage), userId, built.value)
                  && name == "" && amount == Missing && transactionType == None && category == Placeholder
      ensures outcome.Saved? ==>
                storage == Append(old(storage), userId, outcome.record)
                && outcome.record.name == old(name) && Numeric(outcome.record.amount) == old(amount)
                && Some(outcome.record.kind) == old(transactionType)
                && outcome.record.category == old(category).key != PlaceholderKey
      ensures !outcome.Saved? ==> storage == old(storage)
      ensures WellFormedRecords(Load(old(storage), userId)) ==> WellFormedRecords(Load(storage, userId))
    {
      var v := Validate(name, amount);
      if v.Invalid? {
        return InvalidFields(v.errors);
      }
      outcome := HandleRegister(v.form, id, now);
    }
  }
}
