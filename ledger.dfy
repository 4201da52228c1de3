/**
 * The persisted entities of the ledger (expenses, incomes, expense
 * sub-categories, currencies), the HTTP status codes the services answer
 * with, and the response shapes they build.
 */
module Ledger {
  import opened Wrappers
  import opened Dates

  /** The HTTP statuses the services return. */
  datatype Status = Ok | Created | NoContent | BadRequest | Forbidden | NotFound | InternalServerError

  /** A `ResponseEntity`: a status and a body that may be absent. */
  datatype Response<T> = Response(status: Status, body: Option<T>)

  /** A response with a status and no body (`ResponseEntity.status(s).build()`). */
  function Empty<T>(s: Status): Response<T> {
    Response(s, None)
  }

  datatype User = User(id: nat, username: string)

  datatype ExpenseCategory =
    Subscription | Food | Utilities | Entertainment | Transportation | Healthcare | Other

  /** The display name each category carries; the key of the category breakdown. */
  function DisplayName(c: ExpenseCategory): (name: string)
    ensures |name| > 0 && 'A' <= name[0] <= 'Z'
  {
    match c
    case Subscription => "Subscription"
    case Food => "Food"
    case Utilities => "Utilities"
    case Entertainment => "Entertainment"
    case Transportation => "Transportation"
    case Healthcare => "Healthcare"
    case Other => "Other"
  }

  /** Distinct categories never share a breakdown key. */
  lemma DisplayNameInjective(a: ExpenseCategory, b: ExpenseCategory)
    ensures DisplayName(a) == DisplayName(b) ==> a == b
  {
  }

  /** The value a patch field leaves: the given one, or the current one when none is given. */
  function Patch<T>(current: T, given: Option<T>): T {
    if given.Some? then given.value else current
  }

  /** A stored record: the identifier the store assigned, and the fields. */
  datatype Row<T> = Row(id: nat, value: T)

  datatype SubCategory = SubCategory(category: ExpenseCategory, owner: User, name: string)

  /** An expense; it references its sub-category, which names its category. */
  datatype Expense = Expense(
    owner: User,
    description: string,
    amount: real,
    subCategory: Row<SubCategory>,
    date: LocalDateTime,
    recurring: bool,
    recurrencePeriod: Option<string>)

  datatype Income = Income(
    source: string,
    description: string,
    amount: real,
    date: LocalDateTime,
    recurring: bool,
    recurrencePeriod: Option<string>,
    owner: User)

  datatype Currency = Currency(code: string, name: string, rate: real, lastTimeUpdated: LocalDateTime)

  /** The expense DTO; fields a builder leaves unset are `None`. */
  datatype ExpenseResponse = ExpenseResponse(
    id: Option<nat>,
    username: Option<string>,
    description: string,
    amount: real,
    category: string,
    subCategory: string,
    subCategoryId: Option<nat>,
    date: LocalDateTime,
    recurring: bool,
    recurrencePeriod: Option<string>)

  datatype IncomeResponse = IncomeResponse(
    id: Option<nat>,
    username: Option<string>,
    description: string,
    amount: real,
    source: string,
    date: LocalDateTime,
    recurring: bool,
    recurrencePeriod: Option<string>)
}
