/**
 * The record store: the whole expense list kept in one browser storage
 * entry, key `expense-tracker-data`. Reading never fails (a missing or
 * unreadable entry reads as no expenses); writing may fail when the
 * browser's storage is full, and the failure is swallowed. Every mutator
 * reads the list, computes the new list and writes it back.
 *
 * JSON is abstracted away: a stored entry that parses is the list itself.
 */
module Storage {
  import opened Seqs
  import opened ExpenseModel

  /** The storage entry: absent, a list written by `saveExpenses`, or text that does not parse. */
  datatype Slot = Absent | Stored(expenses: seq<Expense>) | Malformed(raw: string)

  // ---------------------------------------------------------------------------
  // The list operations the mutators apply
  // ---------------------------------------------------------------------------

  /** Some expense in the list has this id. */
  predicate HasId(expenses: seq<Expense>, id: string)
  {
    exists i :: 0 <= i < |expenses| && expenses[i].id == id
  }

  /** No two expenses of the list share an id. */
  predicate UniqueIds(expenses: seq<Expense>)
  {
    forall i, j :: 0 <= i < j < |expenses| ==> expenses[i].id != expenses[j].id
  }

  /** `expenses.map((expense) => expense.id === id ? updatedExpense : expense)`. */
  function ReplaceById(expenses: seq<Expense>, id: string, updated: Expense): (r: seq<Expense>)
    ensures |r| == |expenses|
    ensures forall i :: 0 <= i < |r| ==> r[i] == if expenses[i].id == id then updated else expenses[i]
  {
    if expenses == [] then []
    else [if expenses[0].id == id then updated else expenses[0]] + ReplaceById(expenses[1..], id, updated)
  }

  function HasOtherId(id: string): Expense -> bool
  {
    (e: Expense) => e.id != id
  }

  /** `expenses.filter((expense) => expense.id !== id)`. */
  function RemoveById(expenses: seq<Expense>, id: string): (r: seq<Expense>)
    ensures |r| <= |expenses|
    ensures forall i :: 0 <= i < |r| ==> r[i].id != id && r[i] in expenses
    ensures forall i :: 0 <= i < |expenses| && expenses[i].id != id ==> expenses[i] in r
  {
    Filter(HasOtherId(id), expenses)
  }

  /** Replacing an id that is not there changes nothing. */
  lemma ReplaceMissingId(expenses: seq<Expense>, id: string, updated: Expense)
    requires !HasId(expenses, id)
    ensures ReplaceById(expenses, id, updated) == expenses
  {
  }

  /** Replacing a record by one with the same id keeps the ids unique. */
  lemma ReplaceKeepsIdsUnique(expenses: seq<Expense>, id: string, updated: Expense)
    requires UniqueIds(expenses) && updated.id == id
    ensures UniqueIds(ReplaceById(expenses, id, updated))
  {
  }

  /**
   * Removal keeps exactly the records with another id, in their order: a
   * subsequence in which each such record occurs as often as before and no
   * record with `id` occurs.
   */
  lemma RemoveKeepsOthers(expenses: seq<Expense>, id: string, e: Expense)
    ensures IsSubsequence(RemoveById(expenses, id), expenses)
    ensures multiset(RemoveById(expenses, id))[e] == if e.id != id then multiset(expenses)[e] else 0
  {
    FilterIsSubsequence(HasOtherId(id), expenses);
    FilterCount(HasOtherId(id), expenses, e);
  }

  /** Removing an id that is not there changes nothing. */
  lemma RemoveMissingId(expenses: seq<Expense>, id: string)
    requires !HasId(expenses, id)
    ensures RemoveById(expenses, id) == expenses
  {
    FilterAllPass(HasOtherId(id), expenses);
  }

  /** Removal keeps the ids unique. */
  lemma {:induction false} RemoveKeepsIdsUnique(expenses: seq<Expense>, id: string)
    requires UniqueIds(expenses)
    ensures UniqueIds(RemoveById(expenses, id))
  {
    if expenses != [] {
      var tail := expenses[1..];
      RemoveKeepsIdsUnique(tail, id);
      var rest := RemoveById(tail, id);
      forall k | 0 <= k < |rest| ensures rest[k].id != expenses[0].id {
        var j :| 0 <= j < |tail| && tail[j] == rest[k];
        assert expenses[j + 1] == rest[k];
      }
      if expenses[0].id != id {
        assert RemoveById(expenses, id) == [expenses[0]] + rest;
      } else {
        assert RemoveById(expenses, id) == rest;
      }
    }
  }

  /** Appending a record with a fresh id keeps the ids unique. */
  lemma AppendKeepsIdsUnique(expenses: seq<Expense>, e: Expense)
    requires UniqueIds(expenses) && !HasId(expenses, e.id)
    ensures UniqueIds(expenses + [e])
  {
  }

  /** Appending a record with a fresh id and then removing that id gives the list back. */
  lemma RemoveAfterAppend(expenses: seq<Expense>, e: Expense)
    requires !HasId(expenses, e.id)
    ensures RemoveById(expenses + [e], e.id) == expenses
  {
    FilterSnoc(HasOtherId(e.id), expenses, e);
    RemoveMissingId(expenses, e.id);
    assert expenses + [] == expenses;
  }

  // ---------------------------------------------------------------------------
  // The store
  // ---------------------------------------------------------------------------

  /** The `storage` object over the browser's storage entry. */
  class ExpenseStore {
    /** The entry under `expense-tracker-data`. */
    var slot: Slot
    /** The browser refuses writes (its storage quota is used up). */
    var storageFull: bool

    constructor (slot: Slot, storageFull: bool)
      ensures this.slot == slot && this.storageFull == storageFull
    {
      this.slot := slot;
      this.storageFull := storageFull;
    }

    /** The list the entry reads as. */
    function Contents(): seq<Expense>
      reads this
    {
      match slot
      case Stored(expenses) => expenses
      case _ => []
    }

    /** `getExpenses`: the stored list, or the empty list when nothing is stored or it does not parse. */
    method GetExpenses() returns (expenses: seq<Expense>)
      ensures slot.Stored? ==> expenses == slot.expenses
      ensures slot.Absent? || slot.Malformed? ==> expenses == []
    {
      match slot
      case Absent => expenses := [];
      case Stored(xs) => expenses := xs;
      case Malformed(_) => expenses := [];
    }

    /** `saveExpenses`: the entry now holds the list, unless the write is refused and swallowed. */
    method SaveExpenses(expenses: seq<Expense>)
      modifies this
      ensures storageFull == old(storageFull)
      ensures slot == if storageFull then old(slot) else Stored(expenses)
      ensures !storageFull ==> Contents() == expenses
    {
      if !storageFull {
        slot := Stored(expenses);
      }
    }

    /** `addExpense`: the old list with `expense` at the end, written back and returned. */
    method AddExpense(expense: Expense) returns (expenses: seq<Expense>)
      modifies this
      ensures expenses == old(Contents()) + [expense]
      ensures storageFull == old(storageFull)
      ensures slot == if storageFull then old(slot) else Stored(expenses)
      ensures UniqueIds(old(Contents())) && !HasId(old(Contents()), expense.id) ==> UniqueIds(expenses)
    {
      var current := GetExpenses();
      expenses := current + [expense];
      SaveExpenses(expenses);
      if UniqueIds(current) && !HasId(current, expense.id) {
        AppendKeepsIdsUnique(current, expense);
      }
    }

    /**
     * `updateExpense`: every record with `id` replaced by `updated`, every
     * other record left in place, written back and returned.
     */
    method UpdateExpense(id: string, updated: Expense) returns (expenses: seq<Expense>)
      modifies this
      ensures expenses == ReplaceById(old(Contents()), id, updated)
      ensures |expenses| == |old(Contents())|
      ensures forall i :: 0 <= i < |expenses| ==>
        expenses[i] == if old(Contents())[i].id == id then updated else old(Contents())[i]
      ensures !HasId(old(Contents()), id) ==> expenses == old(Contents())
      ensures storageFull == old(storageFull)
      ensures slot == if storageFull then old(slot) else Stored(expenses)
    {
      var current := GetExpenses();
      expenses := ReplaceById(current, id, updated);
      SaveExpenses(expenses);
      if !HasId(current, id) {
        ReplaceMissingId(current, id, updated);
      }
    }

    /** `deleteExpense`: the records whose id is not `id`, in their order, written back and returned. */
    method DeleteExpense(id: string) returns (expenses: seq<Expense>)
      modifies this
      ensures expenses == RemoveById(old(Contents()), id)
      ensures forall i :: 0 <= i < |expenses| ==> expenses[i].id != id
      ensures |expenses| <= |old(Contents())|
      ensures !HasId(old(Contents()), id) ==> expenses == old(Contents())
      ensures storageFull == old(storageFull)
      ensures slot == if storageFull then old(slot) else Stored(expenses)
    {
      var current := GetExpenses();
      expenses := RemoveById(current, id);
      SaveExpenses(expenses);
      if !HasId(current, id) {
        RemoveMissingId(current, id);
      }
    }

    /** `clearAll`: the entry is removed. */
    method ClearAll()
      modifies this
      ensures slot == Absent && Contents() == []
      ensures storageFull == old(storageFull)
    {
      slot := Absent;
    }
  }

  // ---------------------------------------------------------------------------
  // Sequences of calls
  // ---------------------------------------------------------------------------

  /** Saving a list and reading it back gives that list, when the write is accepted. */
  method SaveThenGet(store: ExpenseStore, expenses: seq<Expense>) returns (loaded: seq<Expense>)
    requires !store.storageFull
    modifies store
    ensures loaded == expenses
  {
    store.SaveExpenses(expenses);
    loaded := store.GetExpenses();
  }

  /** Saving what was just read changes nothing a later read can see. */
  method ResaveWhatWasRead(store: ExpenseStore)
    modifies store
    ensures store.Contents() == old(store.Contents())
  {
    var expenses := store.GetExpenses();
    store.SaveExpenses(expenses);
  }

  /** Adding a record with a fresh id and then deleting that id leaves the list as it was. */
  method AddThenDelete(store: ExpenseStore, expense: Expense) returns (expenses: seq<Expense>)
    requires !HasId(store.Contents(), expense.id)
    modifies store
    ensures expenses == old(store.Contents())
    ensures store.Contents() == old(store.Contents())
  {
    var added := store.AddExpense(expense);
    expenses := store.DeleteExpense(expense.id);
    RemoveAfterAppend(old(store.Contents()), expense);
  }

  /** After `clearAll`, `getExpenses` returns the empty list. */
  method ClearThenGet(store: ExpenseStore) returns (loaded: seq<Expense>)
    modifies store
    ensures loaded == []
  {
    store.ClearAll();
    loaded := store.GetExpenses();
  }
}
