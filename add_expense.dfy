/**
 * The add/edit expense form: its eight state cells, the edit prefill, the
 * submit guard, how the saved record is built, and how submitting changes
 * the shared list.
 */
module AddExpense {
  import opened Wrappers
  import opened DigitText
  import opened ExpenseContext

  /** The values of the form's state cells at one moment. */
  datatype FormFields = FormFields(
    name: string,
    amount: string,
    payee: string,
    category: string,
    paymentMethod: string,
    status: string,
    refCheque: string,
    description: string)

  /** What a freshly opened form shows. */
  const InitialFields := FormFields("", "", "", "Food", "Credit Card", "Cleared", "", "")

  /** The options the three pickers offer. */
  const Categories := ["Food", "Clothes", "Bills", "Others"]
  const PaymentMethods := ["Credit Card", "Cash", "Bank Transfer"]
  const Statuses := ["Cleared", "Uncleared"]

  /** The navigation parameters the form screen is opened with; missing parameters read as `(false, None)`. */
  datatype RouteParams = RouteParams(editMode: bool, expenseData: Option<Expense>)

  /** Which of the two list updates a submission performs. */
  datatype Mode = Create | Edit(target: Expense)

  /** `editMode && expenseData`: an edit needs both the flag and a record to edit. */
  function SubmitMode(p: RouteParams): (m: Mode) {
    if p.editMode && p.expenseData.Some? then Edit(p.expenseData.value) else Create
  }

  /** `parseInt(s, 10)` on a digit string; the empty string gives NaN, written `None`. */
  function ParseInt(s: string): (n: Option<nat>)
    requires AllDigits(s)
  {
    if s == [] then None else Some(DecimalValue(s))
  }

  /** `parseInt(amount, 10) <= 0` on a digit string. */
  function ParseIntRejects(s: string): (r: bool)
    requires AllDigits(s)
  {
    match ParseInt(s)
    case Some(n) => n <= 0
    case None => false
  }

  /** The submit guard `amountNumber <= 0 || name === ""`; a NaN amount compares false, so it passes. */
  predicate Rejects(f: FormFields)
    requires AllDigits(f.amount)
  {
    ParseIntRejects(f.amount) || f.name == ""
  }

  /** `a || b` on two strings: the empty string counts as absent. */
  function OrElse(a: Option<string>, b: string): (r: string) {
    if a.Some? && a.value != "" then a.value else b
  }

  /**
   * The record a submission saves. `id` and `date` come from the route's
   * record when it has non-empty ones, otherwise from the fresh id and the
   * current time, which are passed in. The amount is `Number(amount)`.
   */
  function BuildExpense(f: FormFields, expenseData: Option<Expense>, freshId: string, now: string): (e: Expense)
    requires AllDigits(f.amount)
  {
    var dataId := if expenseData.Some? then Some(expenseData.value.id) else None;
    var dataDate := if expenseData.Some? then Some(expenseData.value.date) else None;
    Expense(
      id := OrElse(dataId, freshId),
      name := f.name,
      category := f.category,
      amount := DecimalValue(f.amount),
      payee := f.payee,
      refCheque := f.refCheque,
      description := f.description,
      paymentMethod := f.paymentMethod,
      status := f.status,
      date := OrElse(dataDate, now))
  }

  /** The list after pressing the submit button with form values `f`. */
  function Submitted(xs: seq<Expense>, f: FormFields, p: RouteParams, freshId: string, now: string): (r: seq<Expense>)
    requires AllDigits(f.amount)
  {
    if Rejects(f) then xs
    else
      var e := BuildExpense(f, p.expenseData, freshId, now);
      match SubmitMode(p)
      case Edit(target) => ReplaceById(xs, target.id, e)
      case Create => xs + [e]
  }

  /** The form values the edit prefill writes for record `e`. */
  function PrefillFields(e: Expense): (f: FormFields) {
    FormFields(e.name, NatToString(e.amount), e.payee, e.category, e.paymentMethod, e.status, e.refCheque, e.description)
  }

  // ---------------------------------------------------------------------
  // Properties of a submission
  // ---------------------------------------------------------------------

  /**
   * A submission is refused exactly when the name is empty or the amount is a
   * non-empty string of zeros, and a refused submission leaves the list as it was.
   */
  lemma SubmitValidation(xs: seq<Expense>, f: FormFields, p: RouteParams, freshId: string, now: string)
    requires AllDigits(f.amount)
    ensures Rejects(f) <==> f.name == "" || (f.amount != "" && AllZeros(f.amount))
    ensures Rejects(f) ==> Submitted(xs, f, p, freshId, now) == xs
  {
    ValueZeroIff(f.amount);
  }

  /** An empty amount is not refused: it is saved as amount 0. */
  lemma EmptyAmountSavedAsZero(f: FormFields, expenseData: Option<Expense>, freshId: string, now: string)
    requires f.name != "" && f.amount == ""
    ensures !Rejects(f)
    ensures BuildExpense(f, expenseData, freshId, now).amount == 0
  {
  }

  /**
   * A record saved with amount 0 cannot be saved again unchanged: the edit
   * prefill writes "0" into the amount field, and "0" is refused.
   */
  lemma ZeroAmountNotResavable(e: Expense)
    requires e.amount == 0
    ensures Rejects(PrefillFields(e))
  {
    assert NatToString(0) == "0";
    ParsePrinted(0);
  }

  /** In create mode an accepted submission appends the new record; every earlier entry stays in place. */
  lemma CreateAppends(xs: seq<Expense>, f: FormFields, p: RouteParams, freshId: string, now: string)
    requires AllDigits(f.amount) && !Rejects(f) && SubmitMode(p) == Create
    ensures var r := Submitted(xs, f, p, freshId, now);
      |r| == |xs| + 1 && r[..|xs|] == xs && r[|xs|] == BuildExpense(f, p.expenseData, freshId, now)
  {
  }

  /**
   * In edit mode an accepted submission keeps the length, puts the new record
   * at every position whose id is the target's, and leaves the others as they were.
   */
  lemma EditReplaces(xs: seq<Expense>, f: FormFields, p: RouteParams, freshId: string, now: string)
    requires AllDigits(f.amount) && !Rejects(f) && SubmitMode(p).Edit?
    ensures var r := Submitted(xs, f, p, freshId, now);
      var e := BuildExpense(f, p.expenseData, freshId, now);
      |r| == |xs| &&
      forall i :: 0 <= i < |xs| ==> r[i] == if xs[i].id == SubmitMode(p).target.id then e else xs[i]
  {
  }

  /** An edit whose target id is not in the list changes nothing. */
  lemma EditAbsentTarget(xs: seq<Expense>, f: FormFields, p: RouteParams, freshId: string, now: string)
    requires AllDigits(f.amount) && SubmitMode(p).Edit? && SubmitMode(p).target.id !in Ids(xs)
    ensures Submitted(xs, f, p, freshId, now) == xs
  {
  }

  /** Every field of `e` other than `id` and `date` is the form's, the amount read by `Number`. */
  predicate TakesFormFields(e: Expense, f: FormFields)
    requires AllDigits(f.amount)
  {
    e.name == f.name && e.amount == DecimalValue(f.amount) && e.payee == f.payee &&
    e.category == f.category && e.paymentMethod == f.paymentMethod && e.status == f.status &&
    e.refCheque == f.refCheque && e.description == f.description
  }

  /** With no record to edit, the saved record gets the fresh id and the current time. */
  lemma CreateRecord(f: FormFields, freshId: string, now: string)
    requires AllDigits(f.amount)
    ensures var e := BuildExpense(f, None, freshId, now);
      e.id == freshId && e.date == now && TakesFormFields(e, f)
  {
  }

  /**
   * The record an edit saves keeps the target's id and date when they are
   * non-empty and falls back to the fresh id and the current time when they
   * are empty; every other field comes from the form.
   */
  lemma EditKeepsIdAndDate(f: FormFields, target: Expense, freshId: string, now: string)
    requires AllDigits(f.amount)
    ensures var e := BuildExpense(f, Some(target), freshId, now);
      e.id == (if target.id != "" then target.id else freshId) &&
      e.date == (if target.date != "" then target.date else now) &&
      TakesFormFields(e, f)
  {
  }

  /** The reference number is saved exactly as entered. */
  lemma RefChequeSavedAsEntered(f: FormFields, expenseData: Option<Expense>, freshId: string, now: string)
    requires AllDigits(f.amount)
    ensures BuildExpense(f, expenseData, freshId, now).refCheque == f.refCheque
  {
  }

  /**
   * An amount typed with a leading zero does not survive a save: it is stored
   * as a number, and the edit form shows that number canonically, so as
   * different text.
   */
  lemma AmountLosesLeadingZeros(f: FormFields, expenseData: Option<Expense>, freshId: string, now: string)
    requires AllDigits(f.amount) && |f.amount| > 1 && f.amount[0] == '0'
    ensures var shown := PrefillFields(BuildExpense(f, expenseData, freshId, now)).amount;
      Canonical(shown) && shown != f.amount
  {
  }

  /**
   * An illustration of the two fields side by side:
   * "007" typed in both fields is saved as reference "007" and amount 7,
   * which the edit form shows again as "7".
   */
  lemma LeadingZerosKeptOnlyInRefCheque(f: FormFields, expenseData: Option<Expense>, freshId: string, now: string)
    requires f.amount == "007" && f.refCheque == "007"
    ensures var e := BuildExpense(f, expenseData, freshId, now);
      e.refCheque == "007" && e.amount == 7 && PrefillFields(e).amount == "7"
  {
    assert "007"[..2] == "00" && "00"[..1] == "0" && "0"[..0] == "";
    assert NatToString(7) == "7";
  }

  /** Submitting the same edit twice leaves the list as submitting it once. */
  lemma EditIdempotent(xs: seq<Expense>, f: FormFields, p: RouteParams, freshId: string, now: string)
    requires AllDigits(f.amount) && SubmitMode(p).Edit?
    ensures Submitted(Submitted(xs, f, p, freshId, now), f, p, freshId, now) == Submitted(xs, f, p, freshId, now)
  {
  }

  /**
   * Ids stay unique through a submission, provided the fresh id is not in use
   * and a record is passed to the form only together with edit mode
   * (app/index.tsx opens the form in create mode without one). A create-mode
   * form that is handed a record would append a second entry under that
   * record's id.
   */
  lemma SubmitKeepsIdsUnique(xs: seq<Expense>, f: FormFields, p: RouteParams, freshId: string, now: string)
    requires AllDigits(f.amount) && UniqueIds(xs) && freshId !in Ids(xs)
    requires p.expenseData.Some? ==> p.editMode
    ensures UniqueIds(Submitted(xs, f, p, freshId, now))
  {
  }

  // ---------------------------------------------------------------------
  // Editing a record without changing it
  // ---------------------------------------------------------------------

  /**
   * Prefilling the form from a record and saving it unchanged rebuilds that
   * very record, when its name is non-empty, its amount positive and its id
   * and date non-empty.
   */
  lemma PrefillSaveRoundTrip(e: Expense, freshId: string, now: string)
    requires e.name != "" && e.amount > 0 && e.id != "" && e.date != ""
    ensures AllDigits(PrefillFields(e).amount)
    ensures !Rejects(PrefillFields(e))
    ensures BuildExpense(PrefillFields(e), Some(e), freshId, now) == e
  {
    ParsePrinted(e.amount);
  }

  /** Saving an unchanged edit of an entry of a list with unique ids leaves the list as it was. */
  lemma PrefillSaveKeepsList(xs: seq<Expense>, e: Expense, freshId: string, now: string)
    requires e.name != "" && e.amount > 0 && e.id != "" && e.date != ""
    requires e in xs && UniqueIds(xs)
    ensures AllDigits(PrefillFields(e).amount)
    ensures Submitted(xs, PrefillFields(e), RouteParams(true, Some(e)), freshId, now) == xs
  {
    PrefillSaveRoundTrip(e, freshId, now);
    var k :| 0 <= k < |xs| && xs[k] == e;
    forall i | 0 <= i < |xs| && xs[i].id == e.id ensures xs[i] == e {
      if i < k {
        assert false;
      } else if k < i {
        assert false;
      }
    }
    ReplaceBySelf(xs, e.id, e);
  }

  // ---------------------------------------------------------------------
  // The form screen
  // ---------------------------------------------------------------------

  /** The add/edit form screen: the route it was opened with and its eight state cells. */
  class ExpenseForm {
    const params: RouteParams
    var name: string
    var amount: string
    var payee: string
    var category: string
    var paymentMethod: string
    var status: string
    var refCheque: string
    var description: string

    function Fields(): FormFields
      reads this
    {
      FormFields(name, amount, payee, category, paymentMethod, status, refCheque, description)
    }

    /** The amount cell only ever holds digits. */
    predicate Valid()
      reads this
    {
      AllDigits(amount)
    }

    /** The screen opens with the default values in every cell. */
    constructor (params: RouteParams)
      ensures this.params == params
      ensures Fields() == InitialFields && Valid()
    {
      this.params := params;
      name, amount, payee := "", "", "";
      category, paymentMethod, status := "Food", "Credit Card", "Cleared";
      refCheque, description := "", "";
    }

    method OnNameChange(value: string)
      requires Valid()
      modifies this
      ensures Valid()
      ensures Fields() == old(Fields()).(name := value)
    {
      name := value;
    }

    /** Typing in the amount field stores only the digits typed. */
    method OnAmountChange(value: string)
      modifies this
      ensures Valid()
      ensures Fields() == old(Fields()).(amount := DigitFilter(value))
    {
      amount := DigitFilter(value);
    }

    method OnPayeeChange(value: string)
      requires Valid()
      modifies this
      ensures Valid()
      ensures Fields() == old(Fields()).(payee := value)
    {
      payee := value;
    }

    /** The category picker offers only the four categories. */
    method OnCategoryChange(value: string)
      requires value in Categories
      requires Valid()
      modifies this
      ensures Valid()
      ensures Fields() == old(Fields()).(category := value)
    {
      category := value;
    }

    method OnPaymentMethodChange(value: string)
      requires value in PaymentMethods
      requires Valid()
      modifies this
      ensures Valid()
      ensures Fields() == old(Fields()).(paymentMethod := value)
    {
      paymentMethod := value;
    }

    method OnStatusChange(value: string)
      requires value in Statuses
      requires Valid()
      modifies this
      ensures Valid()
      ensures Fields() == old(Fields()).(status := value)
    {
      status := value;
    }

    /** Typing in the reference field stores only the digits typed, as text. */
    method OnRefChequeChange(value: string)
      requires Valid()
      modifies this
      ensures Valid()
      ensures Fields() == old(Fields()).(refCheque := DigitFilter(value))
    {
      refCheque := DigitFilter(value);
    }

    method OnDescriptionChange(value: string)
      requires Valid()
      modifies this
      ensures Valid()
      ensures Fields() == old(Fields()).(description := value)
    {
      description := value;
    }

    /** The edit effect: in edit mode with a record, every cell is filled from that record; otherwise nothing changes. */
    method Prefill()
      requires Valid()
      modifies this
      ensures Valid()
      ensures SubmitMode(params).Edit? ==> Fields() == PrefillFields(params.expenseData.value)
      ensures SubmitMode(params).Create? ==> Fields() == old(Fields())
    {
      if params.editMode && params.expenseData.Some? {
        var e := params.expenseData.value;
        name := e.name;
        amount := NatToString(e.amount);
        payee := e.payee;
        category := e.category;
        paymentMethod := e.paymentMethod;
        status := e.status;
        refCheque := e.refCheque;
        description := e.description;
      }
    }

    /**
     * The submit button. A refused submission changes nothing and reports
     * `false` (the source shows an alert); an accepted one inserts or updates
     * through the store's setter and reports `true` (the source returns to the
     * list screen). `freshId` and `now` stand for the random id and the
     * current time.
     */
    method Submit(store: ExpenseStore, freshId: string, now: string) returns (saved: bool)
      requires Valid()
      modifies store
      ensures saved == !Rejects(Fields())
      ensures store.expenses == Submitted(old(store.expenses), Fields(), params, freshId, now)
    {
      var f := Fields();
      if ParseIntRejects(f.amount) || f.name == "" {
        return false;
      }
      var e := BuildExpense(f, params.expenseData, freshId, now);
      if params.editMode && params.expenseData.Some? {
        store.Update(params.expenseData.value.id, e);
      } else {
        store.Insert(e);
      }
      saved := true;
    }
  }
}
