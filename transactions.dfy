/** The transaction, category and budget handlers. Every lookup of a
    transaction or budget filters on both its id and the caller's user id, so a
    row of another user is reported exactly like a missing one. */
module Transactions {
  import opened Wrappers
  import opened Time
  import opened Http
  import opened Models
  import opened Store
  import Sorting

  predicate HasTransaction(rows: seq<Transaction>, id: int, uid: int)
  {
    exists i :: 0 <= i < |rows| && rows[i].id == id && rows[i].userId == uid
  }

  predicate HasBudget(budgets: seq<Budget>, id: int, uid: int)
  {
    exists i :: 0 <= i < |budgets| && budgets[i].id == id && budgets[i].userId == uid
  }

  predicate CategoryExists(categories: seq<Category>, id: int)
  {
    exists i :: 0 <= i < |categories| && categories[i].id == id
  }

  predicate NameTaken(categories: seq<Category>, name: string)
  {
    exists i :: 0 <= i < |categories| && categories[i].name == name
  }

  function FindTransaction(rows: seq<Transaction>, id: int, uid: int): Option<nat>
  {
    FirstIndex(rows, (t: Transaction) => t.id == id && t.userId == uid)
  }

  function FindBudget(budgets: seq<Budget>, id: int, uid: int): Option<nat>
  {
    FirstIndex(budgets, (b: Budget) => b.id == id && b.userId == uid)
  }

  // ---------------------------------------------------------------- transactions

  method CreateTransaction(db: Database, uid: int, req: TransactionCreate, now: DateTime)
    returns (r: Result<Transaction, HttpError>)
    requires db.Valid()
    modifies db
    ensures db.Valid()
    ensures db.users == old(db.users) && db.categories == old(db.categories) && db.budgets == old(db.budgets)
    ensures !CategoryExists(db.categories, req.categoryId) ==>
              r == Err(CategoryNotFound) && db.transactions == old(db.transactions)
    ensures CategoryExists(db.categories, req.categoryId) ==>
              && r.Ok?
              && r.value == Transaction(r.value.id, uid, req.categoryId, req.amount, req.description,
                                        req.timestamp.GetOr(now), req.kind)
              && (forall t :: t in old(db.transactions) ==> t.id != r.value.id)
              && db.transactions == old(db.transactions) + [r.value]
  {
    var found := FirstIndex(db.categories, (c: Category) => c.id == req.categoryId);
    if found.None? {
      return Err(CategoryNotFound);
    }
    var id := NextId(db.transactions, (t: Transaction) => t.id);
    var txn := Transaction(id, uid, req.categoryId, req.amount, req.description,
                           req.timestamp.GetOr(now), req.kind);
    db.transactions := db.transactions + [txn];
    r := Ok(txn);
  }

  /** The caller's transactions, newest first, from position skip, at most limit of them. */
  function ListTransactions(rows: seq<Transaction>, uid: int, skip: nat, limit: nat): (r: seq<Transaction>)
    ensures Sorting.IsSortedPage(OwnedTransactions(rows, uid), TimestampKey, true, skip, limit, r)
    ensures Sorting.SortedBy(r, TimestampKey, true)
    ensures |r| <= limit
    ensures forall t :: t in r ==> t in rows && t.userId == uid
  {
    Sorting.SortedPage(OwnedTransactions(rows, uid), TimestampKey, true, skip, limit)
  }

  /** A first page at least as long as the caller's history lists all of it. */
  lemma ListingIsComplete(rows: seq<Transaction>, uid: int, limit: nat)
    requires limit >= |OwnedTransactions(rows, uid)|
    ensures multiset(ListTransactions(rows, uid, 0, limit)) == multiset(OwnedTransactions(rows, uid))
  {
    Sorting.FullPageIsPermutation(OwnedTransactions(rows, uid), TimestampKey, true, limit,
                                  ListTransactions(rows, uid, 0, limit));
  }

  function GetTransaction(rows: seq<Transaction>, id: int, uid: int): (r: Result<Transaction, HttpError>)
    ensures r.Ok? <==> HasTransaction(rows, id, uid)
    ensures r.Ok? ==> r.value in rows && r.value.id == id && r.value.userId == uid
    ensures r.Err? ==> r.error == TransactionNotFound
  {
    match FindTransaction(rows, id, uid)
    case None => Err(TransactionNotFound)
    case Some(i) => Ok(rows[i])
  }

  /** What a user reads by id depends only on that user's rows: adding, changing or
      removing another user's rows cannot change it. */
  lemma {:induction false} GetSeesOnlyOwnRows(rows: seq<Transaction>, id: int, uid: int)
    ensures GetTransaction(rows, id, uid) == GetTransaction(OwnedTransactions(rows, uid), id, uid)
  {
    if rows != [] {
      GetSeesOnlyOwnRows(rows[1..], id, uid);
      var own := OwnedTransactions(rows, uid);
      if rows[0].userId == uid {
        assert own == [rows[0]] + OwnedTransactions(rows[1..], uid);
        assert own[1..] == OwnedTransactions(rows[1..], uid);
      }
    }
  }

  /** A full update: category, amount, description and type are replaced; the
      timestamp only when the request carries one. */
  function Revised(t: Transaction, req: TransactionCreate): (u: Transaction)
    ensures u.id == t.id && u.userId == t.userId
    ensures u.categoryId == req.categoryId && u.amount == req.amount
    ensures u.description == req.description && u.kind == req.kind
    ensures u.timestamp == if req.timestamp.Some? then req.timestamp.value else t.timestamp
  {
    t.(categoryId := req.categoryId, amount := req.amount, description := req.description,
       kind := req.kind, timestamp := req.timestamp.GetOr(t.timestamp))
  }

  /** No category check: an update may point a row at a category that does not exist. */
  method UpdateTransaction(db: Database, uid: int, id: int, req: TransactionCreate)
    returns (r: Result<Transaction, HttpError>)
    requires db.Valid()
    modifies db
    ensures db.Valid()
    ensures db.users == old(db.users) && db.categories == old(db.categories) && db.budgets == old(db.budgets)
    ensures !HasTransaction(old(db.transactions), id, uid) ==>
              r == Err(TransactionNotFound) && db.transactions == old(db.transactions)
    ensures HasTransaction(old(db.transactions), id, uid) ==>
              && r.Ok?
              && exists i :: 0 <= i < |old(db.transactions)|
                   && old(db.transactions)[i].id == id && old(db.transactions)[i].userId == uid
                   && r.value == Revised(old(db.transactions)[i], req)
                   && db.transactions == old(db.transactions)[i := r.value]
  {
    var found := FindTransaction(db.transactions, id, uid);
    if found.None? {
      return Err(TransactionNotFound);
    }
    var i := found.value;
    var txn := Revised(db.transactions[i], req);
    db.transactions := db.transactions[i := txn];
    r := Ok(txn);
  }

  method DeleteTransaction(db: Database, uid: int, id: int) returns (r: Result<(), HttpError>)
    requires db.Valid()
    modifies db
    ensures db.Valid()
    ensures db.users == old(db.users) && db.categories == old(db.categories) && db.budgets == old(db.budgets)
    ensures !HasTransaction(old(db.transactions), id, uid) ==>
              r == Err(TransactionNotFound) && db.transactions == old(db.transactions)
    ensures HasTransaction(old(db.transactions), id, uid) ==>
              && r == Ok(())
              && exists i :: 0 <= i < |old(db.transactions)|
                   && old(db.transactions)[i].id == id && old(db.transactions)[i].userId == uid
                   && db.transactions == old(db.transactions)[..i] + old(db.transactions)[i + 1..]
    ensures !HasTransaction(db.transactions, id, uid)
  {
    var found := FindTransaction(db.transactions, id, uid);
    if found.None? {
      return Err(TransactionNotFound);
    }
    var i := found.value;
    ghost var before := db.transactions;
    db.transactions := db.transactions[..i] + db.transactions[i + 1..];
    forall k | 0 <= k < |db.transactions|
      ensures db.transactions[k].id != id
    {
      if k < i {
        assert db.transactions[k] == before[k];
      } else {
        assert db.transactions[k] == before[k + 1];
      }
    }
    r := Ok(());
  }

  /** Deleting the same id twice: the second call finds nothing. */
  method DeleteTwice(db: Database, uid: int, id: int) returns (first: Result<(), HttpError>, second: Result<(), HttpError>)
    requires db.Valid()
    modifies db
    ensures second == Err(TransactionNotFound)
  {
    first := DeleteTransaction(db, uid, id);
    second := DeleteTransaction(db, uid, id);
  }

  // ---------------------------------------------------------------- categories

  function ListCategories(categories: seq<Category>): (r: seq<Category>)
    ensures Sorting.SortedBy(r, NameKey, false)
    ensures multiset(r) == multiset(categories)
  {
    Sorting.Sort(categories, NameKey, false)
  }

  method CreateCategory(db: Database, req: CategoryCreate) returns (r: Result<Category, HttpError>)
    requires db.Valid()
    modifies db
    ensures db.Valid()
    ensures db.users == old(db.users) && db.transactions == old(db.transactions) && db.budgets == old(db.budgets)
    ensures NameTaken(old(db.categories), req.name) ==>
              r == Err(CategoryNameTaken) && db.categories == old(db.categories)
    ensures !NameTaken(old(db.categories), req.name) ==>
              && r.Ok?
              && r.value == Category(r.value.id, req.name, req.color)
              && (forall c :: c in old(db.categories) ==> c.id != r.value.id)
              && db.categories == old(db.categories) + [r.value]
  {
    var found := FirstIndex(db.categories, (c: Category) => c.name == req.name);
    if found.Some? {
      return Err(CategoryNameTaken);
    }
    var id := NextId(db.categories, (c: Category) => c.id);
    var category := Category(id, req.name, req.color);
    db.categories := db.categories + [category];
    r := Ok(category);
  }

  // ---------------------------------------------------------------- budgets

  /** The caller's budgets, latest start date first. */
  function ListBudgets(budgets: seq<Budget>, uid: int): (r: seq<Budget>)
    ensures Sorting.SortedBy(r, StartDateKey, true)
    ensures multiset(r) == multiset(OwnedBudgets(budgets, uid))
    ensures forall b :: b in r <==> b in budgets && b.userId == uid
  {
    var r := Sorting.Sort(OwnedBudgets(budgets, uid), StartDateKey, true);
    assert forall b :: b in r <==> b in multiset(OwnedBudgets(budgets, uid));
    r
  }

  /** The category is checked only when the request names one. */
  method CreateBudget(db: Database, uid: int, req: BudgetCreate) returns (r: Result<Budget, HttpError>)
    requires db.Valid()
    modifies db
    ensures db.Valid()
    ensures db.users == old(db.users) && db.categories == old(db.categories)
    ensures db.transactions == old(db.transactions)
    ensures req.categoryId.Some? && !CategoryExists(db.categories, req.categoryId.value) ==>
              r == Err(CategoryNotFound) && db.budgets == old(db.budgets)
    ensures req.categoryId.None? || CategoryExists(db.categories, req.categoryId.value) ==>
              && r.Ok?
              && r.value == Budget(r.value.id, uid, req.categoryId, req.limit, req.period,
                                   req.startDate, req.endDate)
              && (forall b :: b in old(db.budgets) ==> b.id != r.value.id)
              && db.budgets == old(db.budgets) + [r.value]
  {
    if req.categoryId.Some? {
      var found := FirstIndex(db.categories, (c: Category) => c.id == req.categoryId.value);
      if found.None? {
        return Err(CategoryNotFound);
      }
    }
    var id := NextId(db.budgets, (b: Budget) => b.id);
    var budget := Budget(id, uid, req.categoryId, req.limit, req.period, req.startDate, req.endDate);
    db.budgets := db.budgets + [budget];
    r := Ok(budget);
  }

  function GetBudget(budgets: seq<Budget>, id: int, uid: int): (r: Result<Budget, HttpError>)
    ensures r.Ok? <==> HasBudget(budgets, id, uid)
    ensures r.Ok? ==> r.value in budgets && r.value.id == id && r.value.userId == uid
    ensures r.Err? ==> r.error == BudgetNotFound
  {
    match FindBudget(budgets, id, uid)
    case None => Err(BudgetNotFound)
    case Some(i) => Ok(budgets[i])
  }

  /** All five request fields overwrite the row, so an omitted category or end
      date becomes null; id and owner stay. */
  method UpdateBudget(db: Database, uid: int, id: int, req: BudgetCreate) returns (r: Result<Budget, HttpError>)
    requires db.Valid()
    modifies db
    ensures db.Valid()
    ensures db.users == old(db.users) && db.categories == old(db.categories)
    ensures db.transactions == old(db.transactions)
    ensures !HasBudget(old(db.budgets), id, uid) ==> r == Err(BudgetNotFound) && db.budgets == old(db.budgets)
    ensures HasBudget(old(db.budgets), id, uid) ==>
              && r.Ok?
              && r.value == Budget(id, uid, req.categoryId, req.limit, req.period, req.startDate, req.endDate)
              && exists i :: 0 <= i < |old(db.budgets)|
                   && old(db.budgets)[i].id == id && old(db.budgets)[i].userId == uid
                   && db.budgets == old(db.budgets)[i := r.value]
  {
    var found := FindBudget(db.budgets, id, uid);
    if found.None? {
      return Err(BudgetNotFound);
    }
    var i := found.value;
    var budget := db.budgets[i].(categoryId := req.categoryId, limit := req.limit, period := req.period,
                                 startDate := req.startDate, endDate := req.endDate);
    db.budgets := db.budgets[i := budget];
    r := Ok(budget);
  }

  method DeleteBudget(db: Database, uid: int, id: int) returns (r: Result<(), HttpError>)
    requires db.Valid()
    modifies db
    ensures db.Valid()
    ensures db.users == old(db.users) && db.categories == old(db.categories)
    ensures db.transactions == old(db.transactions)
    ensures !HasBudget(old(db.budgets), id, uid) ==> r == Err(BudgetNotFound) && db.budgets == old(db.budgets)
    ensures HasBudget(old(db.budgets), id, uid) ==>
              && r == Ok(())
              && exists i :: 0 <= i < |old(db.budgets)|
                   && old(db.budgets)[i].id == id && old(db.budgets)[i].userId == uid
                   && db.budgets == old(db.budgets)[..i] + old(db.budgets)[i + 1..]
    ensures !HasBudget(db.budgets, id, uid)
  {
    var found := FindBudget(db.budgets, id, uid);
    if found.None? {
      return Err(BudgetNotFound);
    }
    var i := found.value;
    ghost var before := db.budgets;
    db.budgets := db.budgets[..i] + db.budgets[i + 1..];
    forall k | 0 <= k < |db.budgets|
      ensures db.budgets[k].id != id
    {
      if k < i {
        assert db.budgets[k] == before[k];
      } else {
        assert db.budgets[k] == before[k + 1];
      }
    }
    r := Ok(());
  }
}
