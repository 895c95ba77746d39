# Finance ledger

A model of the per-user finance ledger behind the finance tracker's HTTP API:
tables of users, categories, transactions and budgets, each row keyed by a
freshly allocated integer id, and the handlers that read and write them.

- **Write side.** Creating, listing, reading, updating and deleting
  transactions, categories and budgets (`transactions.py`); registering and
  logging in users and resolving a bearer token to a user (`auth.py`). Every
  lookup filters on the entity id *and* the caller's user id, so a missing row
  and another user's row give the same "not found".
- **Read side.** The dashboard and analytics aggregations (`dashboard.py`):
  sums of `amount` over the caller's rows, split by type (income/expense),
  optionally bounded by a timestamp window or by a budget's category and
  dates.
- **The older variant** (`routes.py`). It has its own store of users and
  transactions, in which a transaction has a free-text category and type and a
  calendar date. It offers partial updates, dashboard totals and per-category
  analytics against a fixed budget table.

Layout:

| file | module | contents |
|---|---|---|
| `wrappers.dfy` | `Wrappers` | `Option` (with Python's `value or default`) and `Result` |
| `lex.dfy` | `Lex` | lexicographic order on integer sequences; strings by code point |
| `time.dfy` | `Time` | `DateTime`, `Date`, their order, the start of the current month |
| `sorting.dfy` | `Sorting` | insertion sort by key, OFFSET/LIMIT pages of a sorted listing |
| `http.dfy` | `Http` | the `HttpError(status, detail)` raised by handlers |
| `models.dfy` | `Models` | rows, request bodies, error constants, sort keys |
| `store.dfy` | `Store` | the `Database` class holding the four tables and its invariant, `.first()`, id allocation |
| `transactions.dfy` | `Transactions` | transaction, category and budget handlers |
| `auth.dfy` | `Auth` | register, login, current user |
| `dashboard.dfy` | `Dashboard` | summary, recent transactions, category spending, budget usage |
| `routes.dfy` | `Routes` | the older variant with its own `Database` class |

Handlers that write take the `Database` object, change its tables in one step
(one commit), and state the whole new state of every table. Read-only handlers
are functions over the table sequences. Three things are parameters:

- password hashing and verification;
- token encoding and decoding;
- the current time.

Money is `int`. Every `Database` method preserves `Valid()`:

- ids are unique in every table;
- emails are unique;
- category names are unique.

Listings are specified as "a page of some permutation of the caller's rows
that is sorted by the key" (`Sorting.IsSortedPage`). Rows with equal keys
therefore have no prescribed order, as in SQL.

## Model

| member | source | states |
|---|---|---|
| Store.Database.constructor | finance_tracker_backend/src/api/models.py:27 | an empty store satisfies the invariant: unique ids per table, unique emails, unique category names |
| Store.FirstIndex | finance_tracker_backend/src/api/transactions.py:73 | `.first()`: the index of the first row satisfying the filter, and no earlier row satisfies it; None only when no row does |
| Store.NextId | finance_tracker_backend/src/api/transactions.py:53-55 | the id given to an inserted row is positive and larger than every id in its table, so it is fresh |
| Store.OwnedTransactions | finance_tracker_backend/src/api/transactions.py:67 | the filter `user_id == caller` keeps exactly the caller's rows of the table |
| Store.OwnedTransactionsCounts | finance_tracker_backend/src/api/transactions.py:67 | the filter keeps each of the caller's rows as many times as the table holds it and no other row, so "a permutation of the caller's rows" means exactly those rows |
| Store.OwnedBudgets | finance_tracker_backend/src/api/transactions.py:132 | keeps exactly the caller's budgets |
| Store.OwnedBudgetsCounts | finance_tracker_backend/src/api/transactions.py:132 | keeps each of the caller's budgets as many times as the table holds it, and no other budget |
| Transactions.CreateTransaction | finance_tracker_backend/src/api/transactions.py:42-55 | unknown category: 404 "Category not found" and no table changes. Otherwise exactly one row is appended, with a fresh id, the caller as owner, the request's category, amount, description and type, and the request's timestamp or else now. Other tables are unchanged and the invariant holds |
| Transactions.ListTransactions | finance_tracker_backend/src/api/transactions.py:67 | the result is the skip/limit page of a permutation of the caller's rows sorted newest first. It holds only the caller's rows and at most `limit` of them |
| Transactions.ListingIsComplete | finance_tracker_backend/src/api/transactions.py:67 | with no offset and a limit covering all of the caller's rows, the listing is a permutation of exactly those rows |
| Transactions.GetTransaction | finance_tracker_backend/src/api/transactions.py:73-76 | succeeds if and only if a row has that id and the caller as owner, and returns such a row. It fails with 404 "Transaction not found" otherwise, including for another user's row |
| Transactions.GetSeesOnlyOwnRows | finance_tracker_backend/src/api/transactions.py:73 | the lookup gives the same answer on the whole table as on the caller's rows alone |
| Transactions.Revised | finance_tracker_backend/src/api/transactions.py:85-89 | an update keeps id and owner, replaces category, amount, description and type, and keeps the old timestamp when the request has none |
| Transactions.UpdateTransaction | finance_tracker_backend/src/api/transactions.py:82-92 | not found: 404 and the table is unchanged. Otherwise the matching row is replaced in place by its revision, with no category check, and nothing else changes |
| Transactions.DeleteTransaction | finance_tracker_backend/src/api/transactions.py:98-103 | not found: 404 and the table is unchanged. Otherwise exactly the matching row is removed, the others keep their order, and no row with that id and owner remains |
| Transactions.DeleteTwice | finance_tracker_backend/src/api/transactions.py:98-100 | a second delete of the same id fails with 404 "Transaction not found" |
| Transactions.ListCategories | finance_tracker_backend/src/api/transactions.py:111 | all categories, as a permutation of the table, sorted by name ascending |
| Transactions.CreateCategory | finance_tracker_backend/src/api/transactions.py:117-124 | a taken name gives 400 "Category name already exists" and no change. Otherwise exactly one category with a fresh id is appended; names stay unique |
| Transactions.ListBudgets | finance_tracker_backend/src/api/transactions.py:132 | exactly the caller's budgets, as a permutation, by start date descending |
| Transactions.CreateBudget | finance_tracker_backend/src/api/transactions.py:139-154 | checks the category only when a category id is given, and fails with 404 "Category not found" when it is missing. Otherwise appends one budget with a fresh id, the caller as owner and the request's five fields |
| Transactions.GetBudget | finance_tracker_backend/src/api/transactions.py:171-174 | succeeds if and only if the caller owns a budget with that id; otherwise 404 "Budget not found" |
| Transactions.UpdateBudget | finance_tracker_backend/src/api/transactions.py:180-190 | not found: 404 and no change. Otherwise all five fields are overwritten in place, an omitted category id or end date included, and id and owner are kept |
| Transactions.DeleteBudget | finance_tracker_backend/src/api/transactions.py:160-165 | not found: 404 and no change. Otherwise exactly the matching budget is removed |
| Auth.Register | finance_tracker_backend/src/api/auth.py:69-77 | a registered email gives 400 "User already exists with this email" and no change. Otherwise exactly one user is appended, with a fresh id and `hash(password)` as the stored credential; emails stay unique |
| Auth.Login | finance_tracker_backend/src/api/auth.py:83-87 | every failure is 401 "Incorrect email or password". A success comes from a user with that email whose password verifies, and returns a token issued for that user's id, type "bearer", and the user's public fields. An unknown email always fails |
| Auth.LoginSucceedsIff | finance_tracker_backend/src/api/auth.py:83-85 | with unique emails, login succeeds if and only if some user has that email and the password verifies against that user's hash |
| Auth.GetCurrentUser | finance_tracker_backend/src/api/auth.py:52-63 | succeeds if and only if the token decodes, carries a subject and names an existing user, and returns that user; every failure is 401 "Could not validate credentials" |
| Auth.LoginTokenAuthenticates | finance_tracker_backend/src/api/auth.py:50-63 | when decoding inverts issuing, the token of a successful login resolves to the user who logged in |
| Time.MonthStart | finance_tracker_backend/src/api/dashboard.py:39-40 | the first of the current month at 00:00 is a valid date-time no later than now |
| Time.MonthStartOnOrBefore | finance_tracker_backend/src/api/dashboard.py:52 | a timestamp is on or after the month start exactly when its year and month are the current ones or later |
| Dashboard.DashboardSummary | finance_tracker_backend/src/api/dashboard.py:39-64 | income plus expense equals the sum over all of the caller's rows, and the same holds for the two month totals over the caller's rows since the month start |
| Dashboard.SummaryIsolation | finance_tracker_backend/src/api/dashboard.py:42 | other users' rows never change the caller's summary |
| Dashboard.TypesNeverMix | finance_tracker_backend/src/api/dashboard.py:43 | adding rows of one type leaves both totals of the other type unchanged |
| Dashboard.MonthWindow | finance_tracker_backend/src/api/dashboard.py:49-58 | a new row of the caller's adds its amount to its type's lifetime total. It adds to the month total exactly when its timestamp is in the current month or later |
| Dashboard.MonthWithinLifetime | finance_tracker_backend/src/api/dashboard.py:41-58 | with non-negative amounts, each month total is at most the corresponding lifetime total |
| Dashboard.SummaryZeroWithoutRows | finance_tracker_backend/src/api/dashboard.py:44 | a caller with no rows gets four zeros |
| Dashboard.SumAppend | finance_tracker_backend/src/api/dashboard.py:41 | a filtered sum (and count) over two tables together is the sum of the two |
| Dashboard.NoMatchSumsToZero | finance_tracker_backend/src/api/dashboard.py:114 | a filtered sum with no matching row is 0, never absent |
| Dashboard.SumIgnoresUnmatched | finance_tracker_backend/src/api/dashboard.py:105-113 | rows the filter rejects change neither the sum nor the count |
| Dashboard.SumSplit | finance_tracker_backend/src/api/dashboard.py:41-48 | when two filters split a third into disjoint parts, their sums add up to its sum |
| Dashboard.SumMonotone | finance_tracker_backend/src/api/dashboard.py:49-53 | a narrower filter sums no more than a wider one when the amounts are non-negative |
| Dashboard.RecentTransactions | finance_tracker_backend/src/api/dashboard.py:29-31 | n outside 1..100 is rejected and every n inside is accepted. An accepted result is the first n of a newest-first permutation of the caller's rows: min(n, count) rows, all the caller's |
| Dashboard.CategorySpending | finance_tracker_backend/src/api/dashboard.py:78-92 | each entry is some category's name with the sum of the caller's expenses in it within the inclusive window. Every category with at least one such expense has an entry; a category with none is absent. With unique category names, no category is reported twice |
| Dashboard.SpendingIgnoresIncomeAndOthers | finance_tracker_backend/src/api/dashboard.py:83-84 | income rows and other users' rows never change the report |
| Dashboard.WindowIsInclusive | finance_tracker_backend/src/api/dashboard.py:86-89 | an expense stamped exactly at the start or end bound is counted |
| Dashboard.BudgetUsage | finance_tracker_backend/src/api/dashboard.py:101-124 | one entry per budget of the caller, each echoing its budget and giving the sum of matching expenses (0 when none) |
| Dashboard.UsageCoversEachBudgetOnce | finance_tracker_backend/src/api/dashboard.py:101-103 | with unique ids, a budget appears in the report if and only if the caller owns it, and no budget appears twice |
| Dashboard.OwnedBudgetIdsDistinct | finance_tracker_backend/src/api/dashboard.py:101 | two positions of the caller's budgets hold two different budgets |
| Dashboard.CategoryZeroMeansAll | finance_tracker_backend/src/api/dashboard.py:112-113 | a budget whose category id is 0 is measured like one with no category |
| Dashboard.BudgetAgreesWithCategorySpending | finance_tracker_backend/src/api/dashboard.py:105-114 | a budget on a category spends what category spending reports for that category over the budget's dates, or 0 when the category has no entry |
| Sorting.Sort | finance_tracker_backend/src/api/transactions.py:111 | `ORDER BY`: the result is sorted by the key and a permutation of the input |
| Sorting.SortedPage | finance_tracker_backend/src/api/transactions.py:67 | `ORDER BY … OFFSET skip LIMIT limit`: a page of a sorted permutation, sorted itself, of the length SQL gives, with rows drawn from the input |
| Sorting.FullPageIsPermutation | finance_tracker_backend/src/api/transactions.py:132 | a page starting at 0 whose limit covers the input is a permutation of it |
| Lex.Transitive | finance_tracker_backend/src/api/transactions.py:67 | the order used for timestamps, dates and names is transitive |
| Lex.Total | finance_tracker_backend/src/api/transactions.py:67 | and total |
| Lex.Antisymmetric | finance_tracker_backend/src/api/transactions.py:111 | and antisymmetric |
| Lex.StringKeyInjective | finance_tracker_backend/src/api/transactions.py:111 | names with equal sort keys are equal, so unique names sort strictly |
| Routes.Database.constructor | finance_tracker_backend/src/api/routes.py:18-25 | an empty store has unique ids and unique emails |
| Routes.Register | finance_tracker_backend/src/api/routes.py:18-27 | a duplicate email gives 400 "Email already registered" and no change. Otherwise one user with a fresh id and the hashed password is appended |
| Routes.Login | finance_tracker_backend/src/api/routes.py:32-36 | unknown email and wrong password both give 400 "Invalid email or password". A success is a "bearer" token issued for the matching user's id |
| Routes.LoginSucceedsIff | finance_tracker_backend/src/api/routes.py:32-34 | with unique emails, login succeeds if and only if some user has that email and the password verifies against that user's hash |
| Routes.CreateTransaction | finance_tracker_backend/src/api/routes.py:43-47 | appends one row with a fresh id, every request field copied and the caller as owner; no category check |
| Routes.Owned | finance_tracker_backend/src/api/routes.py:54 | keeps exactly the caller's rows |
| Routes.OwnedCounts | finance_tracker_backend/src/api/routes.py:54 | keeps each of the caller's rows as many times as the table holds it, and no other row |
| Routes.ListTransactions | finance_tracker_backend/src/api/routes.py:54 | a skip/limit page of a permutation of the caller's rows sorted by date descending; at most `limit` rows, all the caller's |
| Routes.GetTransaction | finance_tracker_backend/src/api/routes.py:60-63 | succeeds if and only if the caller owns a row with that id; otherwise 404 "Transaction not found" |
| Routes.Patched | finance_tracker_backend/src/api/routes.py:71-72 | a partial update never changes id or owner; each field the request set is replaced and every other field keeps its value |
| Routes.PatchLaws | finance_tracker_backend/src/api/routes.py:71-72 | an update that sets no field changes nothing, and applying the same update twice equals applying it once |
| Routes.UpdateTransaction | finance_tracker_backend/src/api/routes.py:68-75 | not found: 404 and no change. Otherwise the row is patched in place with only the fields the request set |
| Routes.DeleteTransaction | finance_tracker_backend/src/api/routes.py:80-85 | not found: 404 and no change. Otherwise exactly the matching row is removed |
| Routes.Dashboard | finance_tracker_backend/src/api/routes.py:92-101 | recent rows are the first 5 of a date-descending permutation of the caller's rows, min(5, count) of them, all the caller's |
| Routes.TotalAppend | finance_tracker_backend/src/api/routes.py:92-95 | one more row adds its amount to a filtered total exactly when it is the caller's row of that type (and category) |
| Routes.DashboardRow | finance_tracker_backend/src/api/routes.py:92-95 | one more row adds its amount to the income total only if it is the caller's "income" row, and to the expense total only if it is the caller's "expense" row; any other row changes neither |
| Routes.DashboardZeroWithoutRows | finance_tracker_backend/src/api/routes.py:92-96 | a caller with no rows gets both totals 0 and no recent rows |
| Routes.TotalsSplitTypedRows | finance_tracker_backend/src/api/routes.py:92-95 | when every row of the caller's is typed "income" or "expense", the two totals add up to the sum over all the caller's rows |
| Routes.DistinctCategories | finance_tracker_backend/src/api/routes.py:110 | each category of the caller's rows appears, exactly once, and nothing else |
| Routes.AnalyticsFor | finance_tracker_backend/src/api/routes.py:112-121 | total spent is the sum of the caller's expenses in the category. The budget comes from the fixed table and is present if and only if the category is in it. A percentage is present if and only if a budget is |
| Routes.BudgetAnalyticsReport | finance_tracker_backend/src/api/routes.py:104-122 | one entry per distinct category, each the category's analytics |
| Routes.IncomeOnlyCategoryReported | finance_tracker_backend/src/api/routes.py:110-118 | a category of the caller's with no expenses is still reported, with 0 spent |
| Routes.NoExpenseSpendsNothing | finance_tracker_backend/src/api/routes.py:113-118 | with no expense rows in a category, its total spent is 0 |

## Left out

- HTTP plumbing is not modelled: routers, dependency injection, JSON envelopes, CORS and startup. Errors are `HttpError` values.
- How `main.py` wires the routers together is not modelled. It imports router names that the handler files do not define, and it never mounts `routes.py`.
- The SQLAlchemy engine, sessions and environment configuration are not modelled. Each commit is one atomic update of the store.
- Password hashing, verification and token encoding/decoding are parameters. Their bcrypt and JWT internals are not modelled.
- Token expiry is not modelled, because it depends on the wall clock.
- Clock reads (`datetime.utcnow()`, `func.now()`) are not modelled; the current time is a parameter.
- Floating point is not modelled. Amounts and limits are `int`. The analytics percentage is an exact `real`, without float rounding.
- Routes.AnalyticsFor: the percentage's numeric value is exact, not rounded as floats are; its presence matches the source.
- HTTP-level tests are not a contract here: their payloads and routes do not match the handlers.
- Store.NextId: new ids are one more than the largest id present, as SQLite allocates them. An id freed by deleting the newest row can be handed out again. Other allocators are not modelled.
- Negative `skip`/`limit` are not modelled (`nat` parameters). SQLite treats them specially.
- Transactions.ListCategories: names are sorted by code point (Sorting.Sort over Lex.StringKey). A database collation other than binary is not modelled.
- Dashboard.RecentTransactions: the detail text of the 422 validation error is a placeholder. The framework generates that body.
- Auth.Register: the stored credential is `hash(password)` for an opaque `hash`. That it never equals the plaintext is a property of bcrypt and is not stated.
- Auth.LoginTokenAuthenticates assumes that decoding returns the subject the login put in. `auth.py` puts the integer id in `sub`, and whether the JWT library accepts a non-string subject is not modelled.
- Request and response schemas of the older variant are missing from the source: `routes.py` imports `UserCreate`, `UserLogin`, `UserOut`, `Token`, `TransactionCreate`, `TransactionUpdate`, `TransactionOut`, `DashboardStats` and `BudgetAnalytics` from `models.py`, which defines none of them. The field sets are therefore assumed from the columns in `database.py` and from the fields the handlers use.
- Routes.CreateTransaction: "every request field is copied" is taken to mean amount, category, type, date and description.
- Routes.Register: the response is assumed to carry id and email.
- Routes.UpdateTransaction: the update schema is assumed to have optional amount, category, type, date and description fields. Only description may be set to null; a null for a non-nullable column would fail at commit, and that failure is not modelled.
- The older variant's `get_current_user` dependency is not modelled in `Routes`; the caller's id is a parameter (see Auth.GetCurrentUser).
- Order of `SELECT DISTINCT` in the older analytics: SQL leaves it unspecified. Routes.DistinctCategories fixes one order.
- Dashboard.BudgetUsage: the budgets query has no `ORDER BY`, so SQL promises no order. The model lists the caller's budgets in table order, but the report's order is not part of what the source promises.
- Default arguments are not modelled: skip 0 and limit 50 for the transaction listing, n = 10 for recent transactions, skip 0 and limit 30 for the older listing. Skip, limit and n are always passed explicitly.
- Category spending's output order (`GROUP BY`) is unspecified in SQL. Dashboard.CategorySpending states membership and values, not order.
- Declarations (ORM models, pydantic schemas) only shape the datatypes. Schema validation is not modelled apart from the `n` bound of recent transactions.
