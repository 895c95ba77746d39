/** The database behind the ledger: one sequence of rows per table, and the
    lookups that the handlers' queries perform on them. */
module Store {
  import opened Wrappers
  import opened Models

  /** The row `.first()` returns for a filtered query: the first one that satisfies p. */
  function FirstIndex<T>(s: seq<T>, p: T -> bool): (r: Option<nat>)
    ensures r.Some? ==> r.value < |s| && p(s[r.value]) && forall j :: 0 <= j < r.value ==> !p(s[j])
    ensures r.None? ==> forall j :: 0 <= j < |s| ==> !p(s[j])
  {
    if s == [] then
      None
    else if p(s[0]) then
      Some(0)
    else
      match FirstIndex(s[1..], p)
      case None => None
      case Some(i) => Some(i + 1)
  }

  /** The id an insert receives: one above the largest id in the table, 1 for an empty table. */
  function NextId<T>(s: seq<T>, id: T -> int): (r: int)
    ensures r >= 1
    ensures forall k :: 0 <= k < |s| ==> id(s[k]) < r
  {
    if s == [] then 1
    else
      var rest := NextId(s[1..], id);
      assert forall k :: 1 <= k < |s| ==> s[k] == s[1..][k - 1];
      if id(s[0]) < rest then rest else id(s[0]) + 1
  }

  /** `filter(Transaction.user_id == uid)`. The model keeps table order, which
      SQL does not promise; only the rows kept are stated. */
  function OwnedTransactions(rows: seq<Transaction>, uid: int): (r: seq<Transaction>)
    ensures forall t :: t in r <==> t in rows && t.userId == uid
    ensures |r| <= |rows|
  {
    if rows == [] then []
    else if rows[0].userId == uid then [rows[0]] + OwnedTransactions(rows[1..], uid)
    else OwnedTransactions(rows[1..], uid)
  }

  /** The filter keeps each of the caller's rows as often as the table holds
      it, and no other row. */
  lemma {:induction false} OwnedTransactionsCounts(rows: seq<Transaction>, uid: int)
    ensures forall t :: multiset(OwnedTransactions(rows, uid))[t] == if t.userId == uid then multiset(rows)[t] else 0
  {
    if rows != [] {
      assert rows == [rows[0]] + rows[1..];
      OwnedTransactionsCounts(rows[1..], uid);
    }
  }

  /** `filter(Budget.user_id == uid)`. The model keeps table order, which SQL
      does not promise; only the budgets kept are stated. */
  function OwnedBudgets(budgets: seq<Budget>, uid: int): (r: seq<Budget>)
    ensures forall b :: b in r <==> b in budgets && b.userId == uid
    ensures |r| <= |budgets|
  {
    if budgets == [] then []
    else if budgets[0].userId == uid then [budgets[0]] + OwnedBudgets(budgets[1..], uid)
    else OwnedBudgets(budgets[1..], uid)
  }

  /** The filter keeps each of the caller's budgets as often as the table
      holds it, and no other budget. */
  lemma {:induction false} OwnedBudgetsCounts(budgets: seq<Budget>, uid: int)
    ensures forall b :: multiset(OwnedBudgets(budgets, uid))[b] == if b.userId == uid then multiset(budgets)[b] else 0
  {
    if budgets != [] {
      assert budgets == [budgets[0]] + budgets[1..];
      OwnedBudgetsCounts(budgets[1..], uid);
    }
  }

  predicate UniqueEmails(users: seq<User>)
  {
    forall i, j :: 0 <= i < j < |users| ==> users[i].email != users[j].email
  }

  predicate UniqueCategoryNames(categories: seq<Category>)
  {
    forall i, j :: 0 <= i < j < |categories| ==> categories[i].name != categories[j].name
  }

  predicate UniqueTransactionIds(rows: seq<Transaction>)
  {
    forall i, j :: 0 <= i < j < |rows| ==> rows[i].id != rows[j].id
  }

  predicate UniqueBudgetIds(budgets: seq<Budget>)
  {
    forall i, j :: 0 <= i < j < |budgets| ==> budgets[i].id != budgets[j].id
  }

  class Database {
    var users: seq<User>
    var categories: seq<Category>
    var transactions: seq<Transaction>
    var budgets: seq<Budget>

    /** Primary keys are unique in every table; `users.email` and `categories.name`
        carry unique constraints. */
    ghost predicate Valid()
      reads this
    {
      && (forall i, j :: 0 <= i < j < |users| ==> users[i].id != users[j].id)
      && UniqueEmails(users)
      && (forall i, j :: 0 <= i < j < |categories| ==> categories[i].id != categories[j].id)
      && UniqueCategoryNames(categories)
      && UniqueTransactionIds(transactions)
      && UniqueBudgetIds(budgets)
    }

    constructor ()
      ensures Valid()
      ensures users == [] && categories == [] && transactions == [] && budgets == []
    {
      users, categories, transactions, budgets := [], [], [], [];
    }
  }
}
