/**
 * The expense endpoints: add, delete and edit one of the caller's expenses,
 * and list all or all recurring expenses. Ownership is checked by the
 * owner's identifier; a fault of a repository call is a parameter.
 */
module ExpenseService {
  import opened Wrappers
  import opened Dates
  import opened Ledger
  import opened Repositories
  import opened Aggregation

  /** The body of an add: every field is required, the period is optional. */
  datatype ExpenseRequest = ExpenseRequest(
    description: string,
    amount: real,
    subCategoryId: nat,
    date: LocalDateTime,
    recurring: bool,
    recurrencePeriod: Option<string>)

  /** The body of an edit: an absent field means "keep the stored value". */
  datatype ExpenseEditRequest = ExpenseEditRequest(
    description: Option<string>,
    amount: Option<real>,
    subCategoryId: Option<nat>,
    date: Option<LocalDateTime>,
    recurring: Option<bool>,
    recurrencePeriod: Option<string>)

  /** Whether the sub-category `id` exists and belongs to `user`. */
  predicate OwnSubCategory(subCategories: seq<Row<SubCategory>>, user: User, id: nat) {
    FindById(subCategories, id).Some? && FindById(subCategories, id).value.owner.id == user.id
  }

  /** The expense an add saves: owned by the caller, every other field from the request. */
  function NewExpense(user: User, request: ExpenseRequest, subCategory: Row<SubCategory>): Expense {
    Expense(user, request.description, request.amount, subCategory, request.date, request.recurring, request.recurrencePeriod)
  }

  /**
   * `buildExpenseResponse`: the response carries neither the expense's
   * identifier, nor its owner's name, nor its sub-category's identifier.
   */
  function BuildExpenseResponse(e: Expense): (r: ExpenseResponse)
    ensures r.id.None? && r.username.None? && r.subCategoryId.None?
  {
    ExpenseResponse(None, None, e.description, e.amount, DisplayName(e.subCategory.value.category),
                    e.subCategory.value.name, None, e.date, e.recurring, e.recurrencePeriod)
  }

  /**
   * Two expenses with the same response agree on everything the response
   * shows, the category included: the display name gives it back.
   */
  lemma ResponseDeterminesShownFields(a: Expense, b: Expense)
    requires BuildExpenseResponse(a) == BuildExpenseResponse(b)
    ensures a.description == b.description && a.amount == b.amount && a.date == b.date
    ensures a.recurring == b.recurring && a.recurrencePeriod == b.recurrencePeriod
    ensures a.subCategory.value.category == b.subCategory.value.category
    ensures a.subCategory.value.name == b.subCategory.value.name
  {
    DisplayNameInjective(a.subCategory.value.category, b.subCategory.value.category);
  }

  /** The list entry for an expense: its response with its owner's name. */
  function ListEntry(e: Expense): ExpenseResponse {
    BuildExpenseResponse(e).(username := Some(e.owner.username))
  }

  /** `getListResponseEntity`: one entry per expense, in the given order. */
  method ListResponses(expenses: seq<Expense>) returns (r: Response<seq<ExpenseResponse>>)
    ensures r.status == Ok && r.body.Some?
    ensures |r.body.value| == |expenses|
    ensures forall k :: 0 <= k < |expenses| ==> r.body.value[k] == ListEntry(expenses[k])
  {
    var responses: seq<ExpenseResponse> := [];
    for i := 0 to |expenses|
      invariant |responses| == i
      invariant forall k :: 0 <= k < i ==> responses[k] == ListEntry(expenses[k])
    {
      var response := BuildExpenseResponse(expenses[i]);
      response := response.(username := Some(expenses[i].owner.username));
      responses := responses + [response];
    }
    return Response(Ok, Some(responses));
  }

  /** `findAllExpenses`: every stored expense, in repository order. */
  method FindAllExpenses(table: Table<Expense>) returns (r: Response<seq<ExpenseResponse>>)
    ensures r.status == Ok && r.body.Some? && |r.body.value| == |table.rows|
    ensures forall k :: 0 <= k < |table.rows| ==> r.body.value[k] == ListEntry(table.rows[k].value)
  {
    r := ListResponses(Values(table.rows));
  }

  /** The query `findRecurringExpenses`. */
  function RecurringExpenses(rows: seq<Row<Expense>>): seq<Row<Expense>> {
    Where(rows, (e: Expense) => e.recurring)
  }

  /**
   * `findAllRecurringExpenses`: one entry per recurring expense, in
   * repository order; every entry is a recurring expense's, and every
   * recurring expense has its entry.
   */
  method FindAllRecurringExpenses(table: Table<Expense>) returns (r: Response<seq<ExpenseResponse>>)
    ensures r.status == Ok && r.body.Some?
    ensures var recurring := RecurringExpenses(table.rows);
      |r.body.value| == |recurring| &&
      forall k :: 0 <= k < |recurring| ==> r.body.value[k] == ListEntry(recurring[k].value)
    ensures forall k :: 0 <= k < |r.body.value| ==> r.body.value[k].recurring
    ensures forall k :: 0 <= k < |table.rows| && table.rows[k].value.recurring ==>
      ListEntry(table.rows[k].value) in r.body.value
  {
    var recurring := RecurringExpenses(table.rows);
    r := ListResponses(Values(recurring));
    forall k | 0 <= k < |table.rows| && table.rows[k].value.recurring
      ensures ListEntry(table.rows[k].value) in r.body.value
    {
      var j :| 0 <= j < |recurring| && recurring[j] == table.rows[k];
      assert r.body.value[j] == ListEntry(table.rows[k].value);
    }
  }

  /**
   * `addExpense`. A sub-category that is missing or another user's is a bad
   * request; a failing save is a server error; both leave the table alone.
   * Otherwise exactly one expense is stored, under the next identifier.
   */
  method AddExpense(table: Table<Expense>, subCategories: seq<Row<SubCategory>>, user: User,
                    request: ExpenseRequest, saveFails: bool) returns (r: Response<ExpenseResponse>)
    requires table.Valid()
    modifies table
    ensures table.Valid()
    ensures !OwnSubCategory(subCategories, user, request.subCategoryId) ==>
      r == Empty(BadRequest) && table.rows == old(table.rows) && table.nextId == old(table.nextId)
    ensures OwnSubCategory(subCategories, user, request.subCategoryId) && saveFails ==>
      r == Empty(InternalServerError) && table.rows == old(table.rows) && table.nextId == old(table.nextId)
    ensures OwnSubCategory(subCategories, user, request.subCategoryId) && !saveFails ==>
      var sub := Row(request.subCategoryId, FindById(subCategories, request.subCategoryId).value);
      var e := NewExpense(user, request, sub);
      && r == Response(Created, Some(BuildExpenseResponse(e).(username := Some(user.username))))
      && table.rows == old(table.rows) + [Row(old(table.nextId), e)]
      && FindById(table.rows, old(table.nextId)) == Some(e)
      && forall j :: j != old(table.nextId) ==> FindById(table.rows, j) == FindById(old(table.rows), j)
  {
    var found := FindById(subCategories, request.subCategoryId);
    if found.None? || found.value.owner.id != user.id {
      return Empty(BadRequest);
    }
    var expense := NewExpense(user, request, Row(request.subCategoryId, found.value));
    if saveFails {
      return Empty(InternalServerError);
    }
    var id := table.Insert(expense);
    var response := BuildExpenseResponse(expense);
    response := response.(username := Some(expense.owner.username));
    return Response(Created, Some(response));
  }

  /** The message of a successful delete. */
  function DeletedMessage(e: Expense): string {
    "Expense deleted with description: " + e.description
  }

  /**
   * `deleteExpense`. A lookup that throws, an unknown identifier and a
   * failing delete are server errors, another user's expense is forbidden,
   * and all four leave the table alone; otherwise exactly that expense goes.
   */
  method DeleteExpense(table: Table<Expense>, user: User, id: nat, lookupFails: bool, deleteFails: bool)
    returns (r: Response<string>)
    requires table.Valid()
    modifies table
    ensures table.Valid() && table.nextId == old(table.nextId)
    ensures lookupFails ==> r == Empty(InternalServerError) && table.rows == old(table.rows)
    ensures !lookupFails && FindById(old(table.rows), id).None? ==>
      r == Empty(InternalServerError) && table.rows == old(table.rows)
    ensures !lookupFails && FindById(old(table.rows), id).Some? && FindById(old(table.rows), id).value.owner.id != user.id ==>
      r == Empty(Forbidden) && table.rows == old(table.rows)
    ensures !lookupFails && FindById(old(table.rows), id).Some? && FindById(old(table.rows), id).value.owner.id == user.id ==>
      if deleteFails then r == Empty(InternalServerError) && table.rows == old(table.rows)
      else
        && r == Response(Ok, Some(DeletedMessage(FindById(old(table.rows), id).value)))
        && FindById(table.rows, id).None?
        && forall j :: j != id ==> FindById(table.rows, j) == FindById(old(table.rows), j)
  {
    if lookupFails {
      return Empty(InternalServerError);
    }
    var found := FindById(table.rows, id);
    if found.None? {
      return Empty(InternalServerError);
    }
    var expense := found.value;
    if expense.owner.id != user.id {
      return Empty(Forbidden);
    }
    var message := "Expense deleted with description: " + expense.description;
    if deleteFails {
      return Empty(InternalServerError);
    }
    table.Delete(id);
    return Response(Ok, Some(message));
  }

  /**
   * `updateExpenseFields` as a value: each given field overwrites, each
   * absent one keeps; a sub-category identifier that resolves to nothing
   * keeps the old sub-category.
   */
  function PatchedExpense(e: Expense, request: ExpenseEditRequest, subCategories: seq<Row<SubCategory>>): (r: Expense)
    ensures r.owner == e.owner
    ensures request.description.Some? ==> r.description == request.description.value
    ensures request.description.None? ==> r.description == e.description
    ensures request.amount.Some? ==> r.amount == request.amount.value
    ensures request.amount.None? ==> r.amount == e.amount
    ensures request.subCategoryId.Some? && FindById(subCategories, request.subCategoryId.value).Some? ==>
      r.subCategory == Row(request.subCategoryId.value, FindById(subCategories, request.subCategoryId.value).value)
    ensures request.subCategoryId.None? || FindById(subCategories, request.subCategoryId.value).None? ==>
      r.subCategory == e.subCategory
    ensures request.date.Some? ==> r.date == request.date.value
    ensures request.date.None? ==> r.date == e.date
    ensures request.recurring.Some? ==> r.recurring == request.recurring.value
    ensures request.recurring.None? ==> r.recurring == e.recurring
    ensures request.recurrencePeriod.Some? ==> r.recurrencePeriod == request.recurrencePeriod
    ensures request.recurrencePeriod.None? ==> r.recurrencePeriod == e.recurrencePeriod
  {
    var sub :=
      if request.subCategoryId.Some? && FindById(subCategories, request.subCategoryId.value).Some?
      then Row(request.subCategoryId.value, FindById(subCategories, request.subCategoryId.value).value)
      else e.subCategory;
    Expense(e.owner, Patch(e.description, request.description), Patch(e.amount, request.amount), sub,
            Patch(e.date, request.date), Patch(e.recurring, request.recurring),
            if request.recurrencePeriod.Some? then request.recurrencePeriod else e.recurrencePeriod)
  }

  /** An edit with no field given changes nothing. */
  lemma EmptyEditKeepsExpense(e: Expense, subCategories: seq<Row<SubCategory>>)
    ensures PatchedExpense(e, ExpenseEditRequest(None, None, None, None, None, None), subCategories) == e
  {
  }

  /** Applying the same edit twice is applying it once. */
  lemma EditIsIdempotent(e: Expense, request: ExpenseEditRequest, subCategories: seq<Row<SubCategory>>)
    ensures PatchedExpense(PatchedExpense(e, request, subCategories), request, subCategories) ==
            PatchedExpense(e, request, subCategories)
  {
  }

  /**
   * Turning recurrence off keeps the period, and the new sub-category's
   * owner is not checked: an edit can attach another user's sub-category.
   */
  lemma EditChecksNeitherPeriodNorSubCategoryOwner()
    ensures var ana, bob := User(1, "ana"), User(2, "bob");
      var theirs := Row(7, SubCategory(Food, bob, "groceries"));
      var mine := Row(3, SubCategory(Subscription, ana, "music"));
      var e := Expense(ana, "music", 10.0, mine, DateTime(2024, 1, 1, 0), true, Some("MONTHLY"));
      var patched := PatchedExpense(e, ExpenseEditRequest(None, None, Some(7), None, Some(false), None), [theirs]);
      patched.recurring == false && patched.recurrencePeriod == Some("MONTHLY") && patched.subCategory == theirs
  {
    var theirs := Row(7, SubCategory(Food, User(2, "bob"), "groceries"));
    FindByIdAt([theirs], 0);
  }

  /** `updateExpenseFields`: the setters run one field after another on the loaded expense. */
  method UpdateExpenseFields(expense: Expense, request: ExpenseEditRequest, subCategories: seq<Row<SubCategory>>)
    returns (updated: Expense)
    ensures updated == PatchedExpense(expense, request, subCategories)
  {
    updated := expense;
    if request.description.Some? {
      updated := updated.(description := request.description.value);
    }
    if request.amount.Some? {
      updated := updated.(amount := request.amount.value);
    }
    if request.subCategoryId.Some? {
      var subCategory := FindById(subCategories, request.subCategoryId.value);
      if subCategory.Some? {
        updated := updated.(subCategory := Row(request.subCategoryId.value, subCategory.value));
      }
    }
    if request.date.Some? {
      updated := updated.(date := request.date.value);
    }
    if request.recurring.Some? {
      updated := updated.(recurring := request.recurring.value);
    }
    if request.recurrencePeriod.Some? {
      updated := updated.(recurrencePeriod := request.recurrencePeriod);
    }
  }

  /**
   * `editExpense`. A lookup that throws (of the expense, or of the new
   * sub-category inside `updateExpenseFields`) and a failing save are
   * server errors, an unknown identifier is not found, another user's
   * expense is forbidden, and all of these leave the table alone; otherwise
   * the expense takes the patched values under its identifier and the
   * response shows them.
   */
  method EditExpense(table: Table<Expense>, subCategories: seq<Row<SubCategory>>, user: User, id: nat,
                     request: ExpenseEditRequest, lookupFails: bool, subCategoryLookupFails: bool, saveFails: bool)
    returns (r: Response<ExpenseResponse>)
    requires table.Valid()
    modifies table
    ensures table.Valid() && table.nextId == old(table.nextId)
    ensures lookupFails ==> r == Response(InternalServerError, None) && table.rows == old(table.rows)
    ensures !lookupFails && FindById(old(table.rows), id).None? ==>
      r == Response(NotFound, None) && table.rows == old(table.rows)
    ensures !lookupFails && FindById(old(table.rows), id).Some? && FindById(old(table.rows), id).value.owner.id != user.id ==>
      r == Empty(Forbidden) && table.rows == old(table.rows)
    ensures !lookupFails && FindById(old(table.rows), id).Some? && FindById(old(table.rows), id).value.owner.id == user.id ==>
      var patched := PatchedExpense(FindById(old(table.rows), id).value, request, subCategories);
      if (subCategoryLookupFails && request.subCategoryId.Some?) || saveFails then
        r == Response(InternalServerError, None) && table.rows == old(table.rows)
      else
        && r == Response(Ok, Some(BuildExpenseResponse(patched)))
        && FindById(table.rows, id) == Some(patched)
        && forall j :: j != id ==> FindById(table.rows, j) == FindById(old(table.rows), j)
  {
    if lookupFails {
      return Response(InternalServerError, None);
    }
    var found := FindById(table.rows, id);
    if found.None? {
      return Response(NotFound, None);
    }
    if found.value.owner.id != user.id {
      return Empty(Forbidden);
    }
    if subCategoryLookupFails && request.subCategoryId.Some? {
      return Response(InternalServerError, None);
    }
    var updated := UpdateExpenseFields(found.value, request, subCategories);
    if saveFails {
      return Response(InternalServerError, None);
    }
    table.Update(id, updated);
    return Response(Ok, Some(BuildExpenseResponse(updated)));
  }
}
