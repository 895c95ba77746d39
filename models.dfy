/** Rows of the four tables of the ledger and the request bodies that create or
    replace them. Money is a whole number of minor units. */
module Models {
  import opened Wrappers
  import opened Time
  import opened Http
  import Lex

  datatype TxType = Income | Expense

  datatype User = User(id: int, email: string, hashedPassword: string,
                       fullName: Option<string>, createdAt: DateTime)

  /** What a handler returns for a user: every column except the password hash. */
  datatype UserOut = UserOut(id: int, email: string, fullName: Option<string>, createdAt: DateTime)

  datatype Category = Category(id: int, name: string, color: Option<string>)

  datatype Transaction = Transaction(id: int, userId: int, categoryId: int, amount: int,
                                     description: Option<string>, timestamp: DateTime, kind: TxType)

  /** A spending limit; a missing categoryId means every category. */
  datatype Budget = Budget(id: int, userId: int, categoryId: Option<int>, limit: int, period: string,
                           startDate: DateTime, endDate: Option<DateTime>)

  datatype UserCreate = UserCreate(email: string, password: string, fullName: Option<string>)

  datatype CategoryCreate = CategoryCreate(name: string, color: Option<string>)

  datatype TransactionCreate = TransactionCreate(amount: int, description: Option<string>,
                                                 timestamp: Option<DateTime>, kind: TxType, categoryId: int)

  datatype BudgetCreate = BudgetCreate(limit: int, period: string, startDate: DateTime,
                                       endDate: Option<DateTime>, categoryId: Option<int>)

  const CategoryNotFound := HttpError(404, "Category not found")
  const TransactionNotFound := HttpError(404, "Transaction not found")
  const BudgetNotFound := HttpError(404, "Budget not found")
  const CategoryNameTaken := HttpError(400, "Category name already exists")
  const EmailTaken := HttpError(400, "User already exists with this email")
  const IncorrectLogin := HttpError(401, "Incorrect email or password")
  const InvalidCredentials := HttpError(401, "Could not validate credentials")

  /** Sort keys: `Transaction.timestamp`, `Budget.start_date`, `Category.name`. */
  function TimestampKey(t: Transaction): seq<int> { Key(t.timestamp) }

  function StartDateKey(b: Budget): seq<int> { Key(b.startDate) }

  function NameKey(c: Category): seq<int> { Lex.StringKey(c.name) }
}
