/** The read side: dashboard totals, spending per category and budget usage.
    Every figure is a `sum(amount)` over the caller's transactions under a
    conjunction of filters, modelled by TxQuery and SumWhere. Totals branch on
    the transaction type and never on the sign of the amount. */
module Dashboard {
  import opened Wrappers
  import opened Time
  import opened Http
  import opened Models
  import opened Store
  import Sorting
  import Lex

  /** The WHERE clause of a sum query; a field left None is a filter not applied.
      Both date bounds are inclusive. */
  datatype TxQuery = TxQuery(userId: int, kind: Option<TxType>, since: Option<DateTime>,
                             until: Option<DateTime>, categoryId: Option<int>)

  predicate Matches(q: TxQuery, t: Transaction)
  {
    && t.userId == q.userId
    && (q.kind.None? || t.kind == q.kind.value)
    && (q.since.None? || Leq(q.since.value, t.timestamp))
    && (q.until.None? || Leq(t.timestamp, q.until.value))
    && (q.categoryId.None? || t.categoryId == q.categoryId.value)
  }

  /** `query(func.sum(Transaction.amount)).filter(q).scalar() or 0`. */
  function SumWhere(rows: seq<Transaction>, q: TxQuery): int
  {
    if rows == [] then 0
    else (if Matches(q, rows[0]) then rows[0].amount else 0) + SumWhere(rows[1..], q)
  }

  /** The number of rows a grouped query sees; a group exists only when it is positive. */
  function CountWhere(rows: seq<Transaction>, q: TxQuery): nat
  {
    if rows == [] then 0
    else (if Matches(q, rows[0]) then 1 else 0) + CountWhere(rows[1..], q)
  }

  // ---------------------------------------------------------------- sums

  lemma {:induction false} SumAppend(a: seq<Transaction>, b: seq<Transaction>, q: TxQuery)
    ensures SumWhere(a + b, q) == SumWhere(a, q) + SumWhere(b, q)
    ensures CountWhere(a + b, q) == CountWhere(a, q) + CountWhere(b, q)
  {
    if a == [] {
      assert a + b == b;
    } else {
      assert (a + b)[1..] == a[1..] + b;
      SumAppend(a[1..], b, q);
    }
  }

  /** With no matching row the sum is 0, never absent. */
  lemma {:induction false} NoMatchSumsToZero(rows: seq<Transaction>, q: TxQuery)
    requires CountWhere(rows, q) == 0
    ensures SumWhere(rows, q) == 0
  {
    if rows != [] {
      NoMatchSumsToZero(rows[1..], q);
    }
  }

  lemma {:induction false} NoneMatch(rows: seq<Transaction>, q: TxQuery)
    requires forall k :: 0 <= k < |rows| ==> !Matches(q, rows[k])
    ensures CountWhere(rows, q) == 0 && SumWhere(rows, q) == 0
  {
    if rows != [] {
      NoneMatch(rows[1..], q);
    }
  }

  /** Rows the filter rejects do not change a sum or a count. */
  lemma SumIgnoresUnmatched(rows: seq<Transaction>, extra: seq<Transaction>, q: TxQuery)
    requires forall k :: 0 <= k < |extra| ==> !Matches(q, extra[k])
    ensures SumWhere(rows + extra, q) == SumWhere(rows, q)
    ensures CountWhere(rows + extra, q) == CountWhere(rows, q)
  {
    SumAppend(rows, extra, q);
    NoneMatch(extra, q);
  }

  /** A sum under a filter that is the disjoint union of two others is their sum. */
  lemma {:induction false} SumSplit(rows: seq<Transaction>, q: TxQuery, q1: TxQuery, q2: TxQuery)
    requires forall t :: Matches(q, t) <==> Matches(q1, t) || Matches(q2, t)
    requires forall t :: !(Matches(q1, t) && Matches(q2, t))
    ensures SumWhere(rows, q) == SumWhere(rows, q1) + SumWhere(rows, q2)
  {
    if rows != [] {
      SumSplit(rows[1..], q, q1, q2);
    }
  }

  /** Over non-negative amounts, a narrower filter sums to no more. */
  lemma {:induction false} SumMonotone(rows: seq<Transaction>, q1: TxQuery, q2: TxQuery)
    requires forall t :: Matches(q1, t) ==> Matches(q2, t)
    requires forall k :: 0 <= k < |rows| ==> rows[k].amount >= 0
    ensures SumWhere(rows, q1) <= SumWhere(rows, q2)
  {
    if rows != [] {
      SumMonotone(rows[1..], q1, q2);
    }
  }

  // ---------------------------------------------------------------- summary

  datatype Summary = Summary(incomeTotal: int, expenseTotal: int, monthIncome: int, monthExpense: int)

  function KindQuery(uid: int, kind: TxType, since: Option<DateTime>): TxQuery
  {
    TxQuery(uid, Some(kind), since, None, None)
  }

  /** Lifetime totals per type and totals since the first of the current month.
      Each pair of totals splits the caller's rows by type. */
  function DashboardSummary(rows: seq<Transaction>, uid: int, now: DateTime): (s: Summary)
    ensures s.incomeTotal + s.expenseTotal == SumWhere(rows, TxQuery(uid, None, None, None, None))
    ensures s.monthIncome + s.monthExpense == SumWhere(rows, TxQuery(uid, None, Some(MonthStart(now)), None, None))
  {
    var start := Some(MonthStart(now));
    SumSplit(rows, TxQuery(uid, None, None, None, None), KindQuery(uid, Income, None), KindQuery(uid, Expense, None));
    SumSplit(rows, TxQuery(uid, None, start, None, None), KindQuery(uid, Income, start), KindQuery(uid, Expense, start));
    Summary(SumWhere(rows, KindQuery(uid, Income, None)),
            SumWhere(rows, KindQuery(uid, Expense, None)),
            SumWhere(rows, KindQuery(uid, Income, start)),
            SumWhere(rows, KindQuery(uid, Expense, start)))
  }

  /** Other users' rows never reach a caller's summary. */
  lemma SummaryIsolation(rows: seq<Transaction>, extra: seq<Transaction>, uid: int, now: DateTime)
    requires forall k :: 0 <= k < |extra| ==> extra[k].userId != uid
    ensures DashboardSummary(rows + extra, uid, now) == DashboardSummary(rows, uid, now)
  {
    var start := Some(MonthStart(now));
    SumIgnoresUnmatched(rows, extra, KindQuery(uid, Income, None));
    SumIgnoresUnmatched(rows, extra, KindQuery(uid, Expense, None));
    SumIgnoresUnmatched(rows, extra, KindQuery(uid, Income, start));
    SumIgnoresUnmatched(rows, extra, KindQuery(uid, Expense, start));
  }

  /** Rows of one type leave the totals of the other type unchanged, whatever
      the sign of their amounts. */
  lemma TypesNeverMix(rows: seq<Transaction>, extra: seq<Transaction>, uid: int, now: DateTime, kind: TxType)
    requires forall k :: 0 <= k < |extra| ==> extra[k].kind == kind
    ensures var before, after := DashboardSummary(rows, uid, now), DashboardSummary(rows + extra, uid, now);
            kind == Expense ==> after.incomeTotal == before.incomeTotal && after.monthIncome == before.monthIncome
    ensures var before, after := DashboardSummary(rows, uid, now), DashboardSummary(rows + extra, uid, now);
            kind == Income ==> after.expenseTotal == before.expenseTotal && after.monthExpense == before.monthExpense
  {
    var start := Some(MonthStart(now));
    var other := if kind == Income then Expense else Income;
    SumIgnoresUnmatched(rows, extra, KindQuery(uid, other, None));
    SumIgnoresUnmatched(rows, extra, KindQuery(uid, other, start));
  }

  /** One more row of the caller's: it always counts in the lifetime total of its
      type, and in the month total exactly when its calendar month is the current
      month or later. */
  lemma MonthWindow(rows: seq<Transaction>, t: Transaction, uid: int, now: DateTime)
    requires Valid(now) && Valid(t.timestamp) && t.userId == uid
    ensures var before, after := DashboardSummary(rows, uid, now), DashboardSummary(rows + [t], uid, now);
            var counted := t.timestamp.year > now.year || (t.timestamp.year == now.year && t.timestamp.month >= now.month);
            var delta := if counted then t.amount else 0;
            && (t.kind == Income ==>
                  && after.incomeTotal == before.incomeTotal + t.amount
                  && after.monthIncome == before.monthIncome + delta
                  && after.expenseTotal == before.expenseTotal
                  && after.monthExpense == before.monthExpense)
            && (t.kind == Expense ==>
                  && after.expenseTotal == before.expenseTotal + t.amount
                  && after.monthExpense == before.monthExpense + delta
                  && after.incomeTotal == before.incomeTotal
                  && after.monthIncome == before.monthIncome)
  {
    var start := Some(MonthStart(now));
    MonthStartOnOrBefore(now, t.timestamp);
    SumAppend(rows, [t], KindQuery(uid, Income, None));
    SumAppend(rows, [t], KindQuery(uid, Expense, None));
    SumAppend(rows, [t], KindQuery(uid, Income, start));
    SumAppend(rows, [t], KindQuery(uid, Expense, start));
  }

  /** With non-negative amounts, a month total never exceeds the lifetime total. */
  lemma MonthWithinLifetime(rows: seq<Transaction>, uid: int, now: DateTime)
    requires forall k :: 0 <= k < |rows| ==> rows[k].amount >= 0
    ensures DashboardSummary(rows, uid, now).monthIncome <= DashboardSummary(rows, uid, now).incomeTotal
    ensures DashboardSummary(rows, uid, now).monthExpense <= DashboardSummary(rows, uid, now).expenseTotal
  {
    var start := Some(MonthStart(now));
    SumMonotone(rows, KindQuery(uid, Income, start), KindQuery(uid, Income, None));
    SumMonotone(rows, KindQuery(uid, Expense, start), KindQuery(uid, Expense, None));
  }

  /** A caller without transactions sees four zeros. */
  lemma SummaryZeroWithoutRows(rows: seq<Transaction>, uid: int, now: DateTime)
    requires forall k :: 0 <= k < |rows| ==> rows[k].userId != uid
    ensures DashboardSummary(rows, uid, now) == Summary(0, 0, 0, 0)
  {
    var start := Some(MonthStart(now));
    NoneMatch(rows, KindQuery(uid, Income, None));
    NoneMatch(rows, KindQuery(uid, Expense, None));
    NoneMatch(rows, KindQuery(uid, Income, start));
    NoneMatch(rows, KindQuery(uid, Expense, start));
  }

  // ---------------------------------------------------------------- recent

  const QueryOutOfRange := HttpError(422, "n must be between 1 and 100")

  /** The caller's n newest transactions; n outside 1..100 is rejected by the
      query-parameter validation. */
  function RecentTransactions(rows: seq<Transaction>, uid: int, n: int): (r: Result<seq<Transaction>, HttpError>)
    ensures r.Ok? <==> 1 <= n <= 100
    ensures r.Err? ==> r.error == QueryOutOfRange
    ensures r.Ok? ==> && Sorting.IsSortedPage(OwnedTransactions(rows, uid), TimestampKey, true, 0, n, r.value)
                      && Sorting.SortedBy(r.value, TimestampKey, true)
                      && |r.value| == (if |OwnedTransactions(rows, uid)| < n then |OwnedTransactions(rows, uid)| else n)
                      && forall t :: t in r.value ==> t in rows && t.userId == uid
  {
    if n < 1 || n > 100 then Err(QueryOutOfRange)
    else Ok(Sorting.SortedPage(OwnedTransactions(rows, uid), TimestampKey, true, 0, n))
  }

  // ---------------------------------------------------------------- category spending

  datatype CategorySpend = CategorySpend(category: string, totalSpent: int)

  function SpendingQuery(uid: int, start: Option<DateTime>, end: Option<DateTime>, categoryId: int): TxQuery
  {
    TxQuery(uid, Some(Expense), start, end, Some(categoryId))
  }

  /** One entry per category that has at least one of the caller's expenses in
      the window, carrying the category's name and the sum of those expenses;
      categories without such rows are left out, not reported as zero. */
  function CategorySpending(rows: seq<Transaction>, categories: seq<Category>, uid: int,
                            start: Option<DateTime>, end: Option<DateTime>): (r: seq<CategorySpend>)
    ensures |r| <= |categories|
    ensures forall e :: e in r ==>
              exists c :: && c in categories
                          && CountWhere(rows, SpendingQuery(uid, start, end, c.id)) > 0
                          && e == CategorySpend(c.name, SumWhere(rows, SpendingQuery(uid, start, end, c.id)))
    ensures forall c :: c in categories && CountWhere(rows, SpendingQuery(uid, start, end, c.id)) > 0 ==>
              CategorySpend(c.name, SumWhere(rows, SpendingQuery(uid, start, end, c.id))) in r
    ensures UniqueCategoryNames(categories) ==> forall i, j :: 0 <= i < j < |r| ==> r[i].category != r[j].category
  {
    if categories == [] then []
    else
      var c := categories[0];
      var q := SpendingQuery(uid, start, end, c.id);
      var rest := CategorySpending(rows, categories[1..], uid, start, end);
      assert forall d :: d in categories <==> d == c || d in categories[1..];
      SpendNamesDistinct(categories, rest, CategorySpend(c.name, SumWhere(rows, q)));
      if CountWhere(rows, q) > 0 then [CategorySpend(c.name, SumWhere(rows, q))] + rest else rest
  }

  /** A report entry for the first category, put in front of entries named
      after the other categories, keeps names distinct when category names are
      unique. */
  lemma SpendNamesDistinct(categories: seq<Category>, rest: seq<CategorySpend>, head: CategorySpend)
    requires categories != [] && head.category == categories[0].name
    requires forall e :: e in rest ==> exists d :: d in categories[1..] && e.category == d.name
    requires UniqueCategoryNames(categories[1..]) ==>
               forall i, j :: 0 <= i < j < |rest| ==> rest[i].category != rest[j].category
    ensures UniqueCategoryNames(categories) ==>
              && (forall i, j :: 0 <= i < j < |rest| ==> rest[i].category != rest[j].category)
              && (forall i, j :: 0 <= i < j < |[head] + rest| ==> ([head] + rest)[i].category != ([head] + rest)[j].category)
  {
    if UniqueCategoryNames(categories) {
      assert UniqueCategoryNames(categories[1..]) by {
        forall a, b | 0 <= a < b < |categories[1..]|
          ensures categories[1..][a].name != categories[1..][b].name
        {
          assert categories[1..][a] == categories[a + 1] && categories[1..][b] == categories[b + 1];
        }
      }
      forall e | e in rest
        ensures e.category != head.category
      {
        var d :| d in categories[1..] && e.category == d.name;
        var k :| 0 <= k < |categories[1..]| && categories[1..][k] == d;
        assert categories[k + 1] == d;
      }
      forall i, j | 0 <= i < j < |[head] + rest|
        ensures ([head] + rest)[i].category != ([head] + rest)[j].category
      {
        assert ([head] + rest)[j] == rest[j - 1];
        if i > 0 {
          assert ([head] + rest)[i] == rest[i - 1];
        } else {
          assert rest[j - 1] in rest;
        }
      }
    }
  }

  /** Income rows and other users' rows never change spending per category. */
  lemma {:induction false} SpendingIgnoresIncomeAndOthers(rows: seq<Transaction>, extra: seq<Transaction>,
                                                          categories: seq<Category>, uid: int,
                                                          start: Option<DateTime>, end: Option<DateTime>)
    requires forall k :: 0 <= k < |extra| ==> extra[k].kind == Income || extra[k].userId != uid
    ensures CategorySpending(rows + extra, categories, uid, start, end) == CategorySpending(rows, categories, uid, start, end)
  {
    if categories != [] {
      SumIgnoresUnmatched(rows, extra, SpendingQuery(uid, start, end, categories[0].id));
      SpendingIgnoresIncomeAndOthers(rows, extra, categories[1..], uid, start, end);
    }
  }

  /** Both ends of the window are inclusive: an expense stamped exactly at a bound is counted. */
  lemma WindowIsInclusive(t: Transaction, start: Option<DateTime>, end: Option<DateTime>)
    requires t.kind == Expense
    requires start.None? || start.value == t.timestamp
    requires end.None? || end.value == t.timestamp
    ensures Matches(SpendingQuery(t.userId, start, end, t.categoryId), t)
  {
    Lex.Reflexive(Key(t.timestamp));
  }

  // ---------------------------------------------------------------- budget usage

  datatype BudgetUsageRow = BudgetUsageRow(budgetId: int, categoryId: Option<int>, period: string, limit: int,
                                           startDate: DateTime, endDate: Option<DateTime>, spent: int)

  /** The expenses a budget is measured against: the caller's expenses from the start date on; the end date
      and the category narrow the query only when they are truthy, so a category
      id of 0 applies no category filter. */
  function BudgetQuery(uid: int, b: Budget): TxQuery
  {
    TxQuery(uid, Some(Expense), Some(b.startDate), b.endDate,
            if b.categoryId.Some? && b.categoryId.value != 0 then b.categoryId else None)
  }

  function UsageOf(b: Budget, rows: seq<Transaction>, uid: int): BudgetUsageRow
  {
    BudgetUsageRow(b.id, b.categoryId, b.period, b.limit, b.startDate, b.endDate, SumWhere(rows, BudgetQuery(uid, b)))
  }

  /** One row per budget of the caller, echoing the budget and
      adding what has been spent against it. */
  function BudgetUsage(budgets: seq<Budget>, rows: seq<Transaction>, uid: int): (r: seq<BudgetUsageRow>)
    ensures |r| == |OwnedBudgets(budgets, uid)|
    ensures forall i :: 0 <= i < |r| ==> r[i] == UsageOf(OwnedBudgets(budgets, uid)[i], rows, uid)
  {
    if budgets == [] then []
    else
      var rest := BudgetUsage(budgets[1..], rows, uid);
      if budgets[0].userId == uid then [UsageOf(budgets[0], rows, uid)] + rest else rest
  }

  /** With unique budget ids, the usage report names each of the caller's budgets
      exactly once and no other budget. */
  lemma UsageCoversEachBudgetOnce(budgets: seq<Budget>, rows: seq<Transaction>, uid: int)
    requires UniqueBudgetIds(budgets)
    ensures var r := BudgetUsage(budgets, rows, uid);
            forall b :: b in budgets ==> (b.userId == uid <==> exists i :: 0 <= i < |r| && r[i].budgetId == b.id)
    ensures var r := BudgetUsage(budgets, rows, uid);
            forall i, j :: 0 <= i < j < |r| ==> r[i].budgetId != r[j].budgetId
  {
    var own := OwnedBudgets(budgets, uid);
    var r := BudgetUsage(budgets, rows, uid);
    forall b | b in budgets
      ensures b.userId == uid <==> exists i :: 0 <= i < |r| && r[i].budgetId == b.id
    {
      if b.userId == uid {
        assert b in own;
        var i :| 0 <= i < |own| && own[i] == b;
        assert r[i].budgetId == b.id;
      }
      if i :| 0 <= i < |r| && r[i].budgetId == b.id {
        assert own[i] in budgets;
        var x :| 0 <= x < |budgets| && budgets[x] == own[i];
        var y :| 0 <= y < |budgets| && budgets[y] == b;
        assert x == y;
        assert own[i] in own;
      }
    }
    assert r == BudgetUsage(budgets, rows, uid);
    forall i, j | 0 <= i < j < |r|
      ensures r[i].budgetId != r[j].budgetId
    {
      OwnedBudgetIdsDistinct(budgets, uid, i, j);
    }
  }

  /** Two different positions of the filtered list come from two different
      positions of the table, so unique ids stay unique. */
  lemma {:induction false} OwnedBudgetIdsDistinct(budgets: seq<Budget>, uid: int, i: nat, j: nat)
    requires UniqueBudgetIds(budgets)
    requires i < j < |OwnedBudgets(budgets, uid)|
    ensures OwnedBudgets(budgets, uid)[i].id != OwnedBudgets(budgets, uid)[j].id
  {
    var own := OwnedBudgets(budgets, uid);
    var tail := OwnedBudgets(budgets[1..], uid);
    assert UniqueBudgetIds(budgets[1..]) by {
      forall a, b | 0 <= a < b < |budgets[1..]|
        ensures budgets[1..][a].id != budgets[1..][b].id
      {
        assert budgets[1..][a] == budgets[a + 1] && budgets[1..][b] == budgets[b + 1];
      }
    }
    if budgets[0].userId == uid {
      assert own == [budgets[0]] + tail;
      var x := own[j];
      assert x == tail[j - 1];
      if i == 0 {
        assert x in budgets[1..];
        var k :| 0 <= k < |budgets[1..]| && budgets[1..][k] == x;
        assert budgets[k + 1] == x;
      } else {
        assert own[i] == tail[i - 1];
        OwnedBudgetIdsDistinct(budgets[1..], uid, i - 1, j - 1);
      }
    } else {
      assert own == tail;
      OwnedBudgetIdsDistinct(budgets[1..], uid, i, j);
    }
  }

  /** A budget whose category id is 0 is measured against every category. */
  lemma CategoryZeroMeansAll(b: Budget, rows: seq<Transaction>, uid: int)
    requires b.categoryId == Some(0)
    ensures UsageOf(b, rows, uid).spent == UsageOf(b.(categoryId := None), rows, uid).spent
  {
  }

  /** A budget on a category spends what category spending reports for that
      category over the budget's window, or 0 when the category is not reported. */
  lemma BudgetAgreesWithCategorySpending(b: Budget, rows: seq<Transaction>, categories: seq<Category>, uid: int, c: Category)
    requires UniqueCategoryNames(categories)
    requires c in categories && c.id != 0 && b.categoryId == Some(c.id)
    ensures var report := CategorySpending(rows, categories, uid, Some(b.startDate), b.endDate);
            && (forall e :: e in report && e.category == c.name ==> e.totalSpent == UsageOf(b, rows, uid).spent)
            && ((forall e :: e in report ==> e.category != c.name) ==> UsageOf(b, rows, uid).spent == 0)
  {
    var report := CategorySpending(rows, categories, uid, Some(b.startDate), b.endDate);
    var q := SpendingQuery(uid, Some(b.startDate), b.endDate, c.id);
    assert BudgetQuery(uid, b) == q;
    forall e | e in report && e.category == c.name
      ensures e.totalSpent == SumWhere(rows, q)
    {
      var d :| d in categories && CountWhere(rows, SpendingQuery(uid, Some(b.startDate), b.endDate, d.id)) > 0
               && e == CategorySpend(d.name, SumWhere(rows, SpendingQuery(uid, Some(b.startDate), b.endDate, d.id)));
      var x :| 0 <= x < |categories| && categories[x] == d;
      var y :| 0 <= y < |categories| && categories[y] == c;
      assert x == y;
    }
    if CountWhere(rows, q) > 0 {
      assert CategorySpend(c.name, SumWhere(rows, q)) in report;
    } else {
      NoMatchSumsToZero(rows, q);
    }
  }
}
