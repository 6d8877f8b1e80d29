/**
 * The shared expense list: the `Expense` record, the store that holds the
 * list for the whole session, the updater the edit form passes to the
 * store's setter, and the hook that reads the store.
 */
module ExpenseContext {
  import opened Wrappers

  /** One expense entry. Amounts are whole numbers; `refCheque` stays text, so its leading zeros are kept. */
  datatype Expense = Expense(
    id: string,
    name: string,
    category: string,
    amount: nat,
    payee: string,
    refCheque: string,
    description: string,
    paymentMethod: string,
    status: string,
    date: string)

  function Ids(xs: seq<Expense>): set<string> {
    set x | x in xs :: x.id
  }

  predicate UniqueIds(xs: seq<Expense>) {
    forall i, j :: 0 <= i < j < |xs| ==> xs[i].id != xs[j].id
  }

  /**
   * The edit updater `prev.map(exp => exp.id === id ? e : exp)`: every entry
   * carrying `id` becomes `e`, every other entry stays where it was.
   */
  function ReplaceById(xs: seq<Expense>, id: string, e: Expense): (r: seq<Expense>)
    ensures |r| == |xs|
    ensures forall i :: 0 <= i < |xs| ==> r[i] == if xs[i].id == id then e else xs[i]
  {
    if xs == [] then []
    else [if xs[0].id == id then e else xs[0]] + ReplaceById(xs[1..], id, e)
  }

  /** No entry carries `id`: the list comes back unchanged (there is no "not found" signal). */
  lemma ReplaceAbsent(xs: seq<Expense>, id: string, e: Expense)
    requires id !in Ids(xs)
    ensures ReplaceById(xs, id, e) == xs
  {
  }

  /** Replacing a second time with the same record changes nothing more. */
  lemma ReplaceIdempotent(xs: seq<Expense>, id: string, e: Expense)
    ensures ReplaceById(ReplaceById(xs, id, e), id, e) == ReplaceById(xs, id, e)
  {
  }

  /** Every entry carrying `id` already equals `e`: replacing leaves the list as it was. */
  lemma ReplaceBySelf(xs: seq<Expense>, id: string, e: Expense)
    requires forall i :: 0 <= i < |xs| && xs[i].id == id ==> xs[i] == e
    ensures ReplaceById(xs, id, e) == xs
  {
  }

  /** The replacement keeps ids unique when the new record takes the id it replaces, or an id not yet used. */
  lemma ReplaceKeepsIdsUnique(xs: seq<Expense>, id: string, e: Expense)
    requires UniqueIds(xs)
    requires e.id == id || e.id !in Ids(xs)
    ensures UniqueIds(ReplaceById(xs, id, e))
  {
  }

  /** The expense provider's state cell: the list, and the setter that replaces it. */
  class ExpenseStore {
    var expenses: seq<Expense>

    /** A new provider holds no expenses. */
    constructor ()
      ensures expenses == []
    {
      expenses := [];
    }

    /** `setExpenses(next)`: the list is replaced wholesale. */
    method SetExpenses(next: seq<Expense>)
      modifies this
      ensures expenses == next
    {
      expenses := next;
    }

    /** `setExpenses(prev => [...prev, e])`. */
    method Insert(e: Expense)
      modifies this
      ensures expenses == old(expenses) + [e]
      ensures |expenses| == |old(expenses)| + 1 && expenses[..|old(expenses)|] == old(expenses)
    {
      SetExpenses(expenses + [e]);
    }

    /** `setExpenses(prev => prev.map(exp => exp.id === id ? e : exp))`. */
    method Update(id: string, e: Expense)
      modifies this
      ensures expenses == ReplaceById(old(expenses), id, e)
    {
      SetExpenses(ReplaceById(expenses, id, e));
    }
  }

  const MissingExpenseProvider := "useExpenseContext must be used within an ExpenseProvider"

  /**
   * `useExpenseContext()`: `null` stands for the `undefined` value a reader
   * sees outside any provider. Outside, it throws; inside, it hands back the
   * provider's own store, so its list and its setter.
   */
  function UseExpenseContext(context: ExpenseStore?): (r: Result<ExpenseStore>)
    ensures r.Err? <==> context == null
    ensures r.Err? ==> r.message == MissingExpenseProvider
    ensures r.Ok? ==> r.value == context
  {
    if context == null then Err(MissingExpenseProvider) else Ok(context)
  }
}
