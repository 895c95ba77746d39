/** The older API variant, self-contained over its own database: users and
    transactions only, a free-text category and type on each transaction, a
    calendar `date` instead of a timestamp, partial updates, and analytics
    against a fixed table of per-category budgets. The caller's id is the one
    resolved by Auth.GetCurrentUser. */
module Routes {
  import opened Wrappers
  import opened Time
  import opened Http
  import Sorting
  import Store

  datatype User = User(id: int, email: string, hashedPassword: string)

  datatype UserOut = UserOut(id: int, email: string)

  datatype Token = Token(accessToken: string, tokenType: string)

  /** `type` is a plain string column; "income" and "expense" are the values the
      dashboard and analytics look for. */
  datatype Transaction = Transaction(id: int, amount: int, category: string, kind: string, date: Date,
                                     description: Option<string>, userId: int)

  datatype TransactionCreate = TransactionCreate(amount: int, category: string, kind: string, date: Date,
                                                 description: Option<string>)

  /** The fields a request sets explicitly; None means the field was not sent.
      The description may be sent as null, which clears it. */
  datatype TransactionUpdate = TransactionUpdate(amount: Option<int>, category: Option<string>, kind: Option<string>,
                                                 date: Option<Date>, description: Option<Option<string>>)

  const EmailAlreadyRegistered := HttpError(400, "Email already registered")
  const InvalidLogin := HttpError(400, "Invalid email or password")
  const TransactionNotFound := HttpError(404, "Transaction not found")

  function DateOf(t: Transaction): seq<int> { DateKey(t.date) }

  predicate HasTransaction(rows: seq<Transaction>, id: int, uid: int)
  {
    exists i :: 0 <= i < |rows| && rows[i].id == id && rows[i].userId == uid
  }

  predicate UniqueEmails(users: seq<User>)
  {
    forall i, j :: 0 <= i < j < |users| ==> users[i].email != users[j].email
  }

  class Database {
    var users: seq<User>
    var transactions: seq<Transaction>

    ghost predicate Valid()
      reads this
    {
      && (forall i, j :: 0 <= i < j < |users| ==> users[i].id != users[j].id)
      && UniqueEmails(users)
      && (forall i, j :: 0 <= i < j < |transactions| ==> transactions[i].id != transactions[j].id)
    }

    constructor ()
      ensures Valid() && users == [] && transactions == []
    {
      users, transactions := [], [];
    }
  }

  // ---------------------------------------------------------------- auth

  method Register(db: Database, email: string, password: string, hash: string -> string)
    returns (r: Result<UserOut, HttpError>)
    requires db.Valid()
    modifies db
    ensures db.Valid()
    ensures db.transactions == old(db.transactions)
    ensures (exists i :: 0 <= i < |old(db.users)| && old(db.users)[i].email == email) ==>
              r == Err(EmailAlreadyRegistered) && db.users == old(db.users)
    ensures (forall i :: 0 <= i < |old(db.users)| ==> old(db.users)[i].email != email) ==>
              && r.Ok? && r.value.email == email
              && (forall u :: u in old(db.users) ==> u.id != r.value.id)
              && db.users == old(db.users) + [User(r.value.id, email, hash(password))]
  {
    var existing := Store.FirstIndex(db.users, (u: User) => u.email == email);
    if existing.Some? {
      return Err(EmailAlreadyRegistered);
    }
    var id := Store.NextId(db.users, (u: User) => u.id);
    db.users := db.users + [User(id, email, hash(password))];
    r := Ok(UserOut(id, email));
  }

  /** Unknown email and wrong password fail alike. The token's subject is the user's id. */
  function Login(users: seq<User>, email: string, password: string,
                 verify: (string, string) -> bool, issue: int -> string): (r: Result<Token, HttpError>)
    ensures r.Err? ==> r.error == InvalidLogin
    ensures r.Ok? ==> exists i :: 0 <= i < |users| && users[i].email == email
                        && verify(password, users[i].hashedPassword)
                        && r.value == Token(issue(users[i].id), "bearer")
    ensures (forall i :: 0 <= i < |users| ==> users[i].email != email) ==> r.Err?
  {
    match Store.FirstIndex(users, (u: User) => u.email == email)
    case None => Err(InvalidLogin)
    case Some(i) =>
      if !verify(password, users[i].hashedPassword) then Err(InvalidLogin)
      else Ok(Token(issue(users[i].id), "bearer"))
  }

  /** With unique emails, login succeeds exactly when the password verifies
      against the hash stored for that email. */
  lemma LoginSucceedsIff(users: seq<User>, email: string, password: string,
                         verify: (string, string) -> bool, issue: int -> string)
    requires UniqueEmails(users)
    ensures Login(users, email, password, verify, issue).Ok?
        <==> exists i :: 0 <= i < |users| && users[i].email == email && verify(password, users[i].hashedPassword)
  {
    var found := Store.FirstIndex(users, (u: User) => u.email == email);
    if found.Some? {
      var i := found.value;
      assert forall j :: 0 <= j < |users| && users[j].email == email ==> j == i;
    }
  }

  // ---------------------------------------------------------------- transactions

  /** Every request field is copied; no check is made on the category. */
  method CreateTransaction(db: Database, uid: int, req: TransactionCreate) returns (t: Transaction)
    requires db.Valid()
    modifies db
    ensures db.Valid()
    ensures db.users == old(db.users)
    ensures t == Transaction(t.id, req.amount, req.category, req.kind, req.date, req.description, uid)
    ensures forall u :: u in old(db.transactions) ==> u.id != t.id
    ensures db.transactions == old(db.transactions) + [t]
  {
    var id := Store.NextId(db.transactions, (u: Transaction) => u.id);
    t := Transaction(id, req.amount, req.category, req.kind, req.date, req.description, uid);
    db.transactions := db.transactions + [t];
  }

  /** `filter(Transaction.user_id == uid)`. The model keeps table order, which
      SQL does not promise; only the rows kept are stated. */
  function Owned(rows: seq<Transaction>, uid: int): (r: seq<Transaction>)
    ensures forall t :: t in r <==> t in rows && t.userId == uid
  {
    if rows == [] then []
    else if rows[0].userId == uid then [rows[0]] + Owned(rows[1..], uid)
    else Owned(rows[1..], uid)
  }

  /** The filter keeps each of the caller's rows as often as the table holds
      it, and no other row. */
  lemma {:induction false} OwnedCounts(rows: seq<Transaction>, uid: int)
    ensures forall t :: multiset(Owned(rows, uid))[t] == if t.userId == uid then multiset(rows)[t] else 0
  {
    if rows != [] {
      assert rows == [rows[0]] + rows[1..];
      OwnedCounts(rows[1..], uid);
    }
  }

  /** The caller's transactions, latest date first, from position skip, at most limit of them. */
  function ListTransactions(rows: seq<Transaction>, uid: int, skip: nat, limit: nat): (r: seq<Transaction>)
    ensures Sorting.IsSortedPage(Owned(rows, uid), DateOf, true, skip, limit, r)
    ensures Sorting.SortedBy(r, DateOf, true)
    ensures |r| <= limit
    ensures forall t :: t in r ==> t in rows && t.userId == uid
  {
    Sorting.SortedPage(Owned(rows, uid), DateOf, true, skip, limit)
  }

  function GetTransaction(rows: seq<Transaction>, id: int, uid: int): (r: Result<Transaction, HttpError>)
    ensures r.Ok? <==> HasTransaction(rows, id, uid)
    ensures r.Ok? ==> r.value in rows && r.value.id == id && r.value.userId == uid
    ensures r.Err? ==> r.error == TransactionNotFound
  {
    match Store.FirstIndex(rows, (t: Transaction) => t.id == id && t.userId == uid)
    case None => Err(TransactionNotFound)
    case Some(i) => Ok(rows[i])
  }

  /** The `setattr` loop over the fields the request set. */
  function Patched(t: Transaction, u: TransactionUpdate): (p: Transaction)
    ensures p.id == t.id && p.userId == t.userId
    ensures p.amount == if u.amount.Some? then u.amount.value else t.amount
    ensures p.category == if u.category.Some? then u.category.value else t.category
    ensures p.kind == if u.kind.Some? then u.kind.value else t.kind
    ensures p.date == if u.date.Some? then u.date.value else t.date
    ensures p.description == if u.description.Some? then u.description.value else t.description
  {
    t.(amount := u.amount.GetOr(t.amount), category := u.category.GetOr(t.category),
       kind := u.kind.GetOr(t.kind), date := u.date.GetOr(t.date),
       description := u.description.GetOr(t.description))
  }

  /** A request that sets nothing changes nothing; applying a request twice is
      the same as applying it once. */
  lemma PatchLaws(t: Transaction, u: TransactionUpdate)
    ensures Patched(t, TransactionUpdate(None, None, None, None, None)) == t
    ensures Patched(Patched(t, u), u) == Patched(t, u)
  {
  }

  method UpdateTransaction(db: Database, uid: int, id: int, u: TransactionUpdate)
    returns (r: Result<Transaction, HttpError>)
    requires db.Valid()
    modifies db
    ensures db.Valid()
    ensures db.users == old(db.users)
    ensures !HasTransaction(old(db.transactions), id, uid) ==>
              r == Err(TransactionNotFound) && db.transactions == old(db.transactions)
    ensures HasTransaction(old(db.transactions), id, uid) ==>
              && r.Ok?
              && exists i :: 0 <= i < |old(db.transactions)|
                   && old(db.transactions)[i].id == id && old(db.transactions)[i].userId == uid
                   && r.value == Patched(old(db.transactions)[i], u)
                   && db.transactions == old(db.transactions)[i := r.value]
  {
    var found := Store.FirstIndex(db.transactions, (t: Transaction) => t.id == id && t.userId == uid);
    if found.None? {
      return Err(TransactionNotFound);
    }
    var i := found.value;
    var t := Patched(db.transactions[i], u);
    db.transactions := db.transactions[i := t];
    r := Ok(t);
  }

  method DeleteTransaction(db: Database, uid: int, id: int) returns (r: Result<(), HttpError>)
    requires db.Valid()
    modifies db
    ensures db.Valid()
    ensures db.users == old(db.users)
    ensures !HasTransaction(old(db.transactions), id, uid) ==>
              r == Err(TransactionNotFound) && db.transactions == old(db.transactions)
    ensures HasTransaction(old(db.transactions), id, uid) ==>
              && r == Ok(())
              && exists i :: 0 <= i < |old(db.transactions)|
                   && old(db.transactions)[i].id == id && old(db.transactions)[i].userId == uid
                   && db.transactions == old(db.transactions)[..i] + old(db.transactions)[i + 1..]
    ensures !HasTransaction(db.transactions, id, uid)
  {
    var found := Store.FirstIndex(db.transactions, (t: Transaction) => t.id == id && t.userId == uid);
    if found.None? {
      return Err(TransactionNotFound);
    }
    var i := found.value;
    ghost var before := db.transactions;
    db.transactions := db.transactions[..i] + db.transactions[i + 1..];
    forall k | 0 <= k < |db.transactions|
      ensures db.transactions[k].id != id
    {
      if k < i {
        assert db.transactions[k] == before[k];
      } else {
        assert db.transactions[k] == before[k + 1];
      }
    }
    r := Ok(());
  }

  // ---------------------------------------------------------------- dashboard

  /** Sum of amounts over the caller's rows of the given type, optionally of one category. */
  function Total(rows: seq<Transaction>, uid: int, kind: string, category: Option<string>): int
  {
    if rows == [] then 0
    else
      var t := rows[0];
      (if t.userId == uid && t.kind == kind && (category.None? || t.category == category.value) then t.amount else 0)
      + Total(rows[1..], uid, kind, category)
  }

  /** Sum of amounts over all of the caller's rows, whatever their type. */
  function OwnedTotal(rows: seq<Transaction>, uid: int): int
  {
    if rows == [] then 0
    else (if rows[0].userId == uid then rows[0].amount else 0) + OwnedTotal(rows[1..], uid)
  }

  datatype DashboardStats = DashboardStats(totalIncome: int, totalExpense: int, recentTransactions: seq<Transaction>)

  /** Income and expense totals (0 when there are none) and the five latest rows. */
  function Dashboard(rows: seq<Transaction>, uid: int): (s: DashboardStats)
    ensures Sorting.IsSortedPage(Owned(rows, uid), DateOf, true, 0, 5, s.recentTransactions)
    ensures |s.recentTransactions| == (if |Owned(rows, uid)| < 5 then |Owned(rows, uid)| else 5)
    ensures forall t :: t in s.recentTransactions ==> t in rows && t.userId == uid
  {
    DashboardStats(Total(rows, uid, "income", None), Total(rows, uid, "expense", None),
                   Sorting.SortedPage(Owned(rows, uid), DateOf, true, 0, 5))
  }

  /** Appending a row adds its amount to the total it matches and nothing otherwise. */
  lemma {:induction false} TotalAppend(rows: seq<Transaction>, t: Transaction, uid: int, kind: string, category: Option<string>)
    ensures Total(rows + [t], uid, kind, category)
         == Total(rows, uid, kind, category)
            + (if t.userId == uid && t.kind == kind && (category.None? || t.category == category.value) then t.amount else 0)
  {
    if rows == [] {
      assert rows + [t] == [t];
    } else {
      assert (rows + [t])[1..] == rows[1..] + [t];
      TotalAppend(rows[1..], t, uid, kind, category);
    }
  }

  /** One more row: an "income" row of the caller's adds its amount to the
      income total only, an "expense" row to the expense total only, and a row
      of another user or of any other type changes neither. */
  lemma DashboardRow(rows: seq<Transaction>, t: Transaction, uid: int)
    ensures var before, after := Dashboard(rows, uid), Dashboard(rows + [t], uid);
            && after.totalIncome == before.totalIncome + (if t.userId == uid && t.kind == "income" then t.amount else 0)
            && after.totalExpense == before.totalExpense + (if t.userId == uid && t.kind == "expense" then t.amount else 0)
  {
    TotalAppend(rows, t, uid, "income", None);
    TotalAppend(rows, t, uid, "expense", None);
  }

  lemma {:induction false} NoCallerRowsTotalZero(rows: seq<Transaction>, uid: int, kind: string, category: Option<string>)
    requires forall k :: 0 <= k < |rows| ==> rows[k].userId != uid
    ensures Total(rows, uid, kind, category) == 0
  {
    if rows != [] {
      NoCallerRowsTotalZero(rows[1..], uid, kind, category);
    }
  }

  /** A caller without transactions sees both totals 0 and no recent rows. */
  lemma DashboardZeroWithoutRows(rows: seq<Transaction>, uid: int)
    requires forall k :: 0 <= k < |rows| ==> rows[k].userId != uid
    ensures Dashboard(rows, uid) == DashboardStats(0, 0, [])
  {
    NoCallerRowsTotalZero(rows, uid, "income", None);
    NoCallerRowsTotalZero(rows, uid, "expense", None);
    assert Owned(rows, uid) == [] by {
      if Owned(rows, uid) != [] {
        assert Owned(rows, uid)[0] in Owned(rows, uid);
      }
    }
  }

  /** The two totals split the caller's rows only when every row's type is
      exactly "income" or "expense"; a row of any other type is in neither. */
  lemma {:induction false} TotalsSplitTypedRows(rows: seq<Transaction>, uid: int)
    requires forall k :: 0 <= k < |rows| && rows[k].userId == uid ==> rows[k].kind in {"income", "expense"}
    ensures Dashboard(rows, uid).totalIncome + Dashboard(rows, uid).totalExpense == OwnedTotal(rows, uid)
  {
    if rows != [] {
      TotalsSplitTypedRows(rows[1..], uid);
    }
  }

  // ---------------------------------------------------------------- budget analytics

  /** The fixed per-category budgets of the analytics endpoint. */
  const CategoryBudgets: map<string, int> :=
    map["Groceries" := 400, "Dining" := 200, "Transport" := 150, "Entertainment" := 100, "Other" := 300]

  datatype BudgetAnalytics = BudgetAnalytics(category: string, totalSpent: int, budget: Option<int>,
                                             percentOfBudget: Option<real>)

  /** `SELECT DISTINCT category` over the caller's rows. */
  function DistinctCategories(rows: seq<Transaction>, uid: int): (r: seq<string>)
    ensures forall c :: c in r <==> exists t :: t in rows && t.userId == uid && t.category == c
    ensures forall i, j :: 0 <= i < j < |r| ==> r[i] != r[j]
  {
    if rows == [] then []
    else
      var rest := DistinctCategories(rows[1..], uid);
      assert forall t :: t in rows <==> t == rows[0] || t in rows[1..];
      if rows[0].userId == uid && rows[0].category !in rest then [rows[0].category] + rest else rest
  }

  /** The entry for one category: its expenses, its fixed budget if it has one,
      and a percentage only when there is a budget. */
  function AnalyticsFor(rows: seq<Transaction>, uid: int, category: string): (a: BudgetAnalytics)
    ensures a.category == category && a.totalSpent == Total(rows, uid, "expense", Some(category))
    ensures a.budget.Some? <==> category in CategoryBudgets
    ensures a.budget.Some? ==> a.budget.value == CategoryBudgets[category]
    ensures a.percentOfBudget.Some? <==> a.budget.Some?
  {
    var spent := Total(rows, uid, "expense", Some(category));
    var budget := if category in CategoryBudgets then Some(CategoryBudgets[category]) else None;
    var percent := if budget.Some? && budget.value != 0 then Some(spent as real / budget.value as real * 100.0) else None;
    BudgetAnalytics(category, spent, budget, percent)
  }

  /** One entry per distinct category of the caller's transactions. */
  method BudgetAnalyticsReport(rows: seq<Transaction>, uid: int) returns (r: seq<BudgetAnalytics>)
    ensures |r| == |DistinctCategories(rows, uid)|
    ensures forall i :: 0 <= i < |r| ==> r[i] == AnalyticsFor(rows, uid, DistinctCategories(rows, uid)[i])
  {
    var categories := DistinctCategories(rows, uid);
    r := [];
    var i := 0;
    while i < |categories|
      invariant 0 <= i <= |categories|
      invariant |r| == i
      invariant forall k :: 0 <= k < i ==> r[k] == AnalyticsFor(rows, uid, categories[k])
    {
      var category := categories[i];
      var spent := Total(rows, uid, "expense", Some(category));
      var budget := if category in CategoryBudgets then Some(CategoryBudgets[category]) else None;
      var percent := None;
      if budget.Some? && budget.value != 0 {
        percent := Some(spent as real / budget.value as real * 100.0);
      }
      r := r + [BudgetAnalytics(category, spent, budget, percent)];
      i := i + 1;
    }
  }

  /** A category of the caller's with no expense rows is still reported, with
      nothing spent (category spending in the newer API omits such a category). */
  lemma IncomeOnlyCategoryReported(rows: seq<Transaction>, uid: int, category: string)
    requires exists t :: t in rows && t.userId == uid && t.category == category
    requires forall k :: 0 <= k < |rows| && rows[k].userId == uid && rows[k].category == category ==> rows[k].kind != "expense"
    ensures exists i :: 0 <= i < |DistinctCategories(rows, uid)| && DistinctCategories(rows, uid)[i] == category
                        && AnalyticsFor(rows, uid, category).totalSpent == 0
  {
    var categories := DistinctCategories(rows, uid);
    assert category in categories;
    NoExpenseSpendsNothing(rows, uid, category);
  }

  lemma {:induction false} NoExpenseSpendsNothing(rows: seq<Transaction>, uid: int, category: string)
    requires forall k :: 0 <= k < |rows| && rows[k].userId == uid && rows[k].category == category ==> rows[k].kind != "expense"
    ensures Total(rows, uid, "expense", Some(category)) == 0
  {
    if rows != [] {
      NoExpenseSpendsNothing(rows[1..], uid, category);
    }
  }
}
