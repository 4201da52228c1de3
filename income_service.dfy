/**
 * The income endpoints: add, delete and edit one of the caller's incomes,
 * and list all or all recurring incomes. Ownership is checked by the
 * owner's identifier; a fault of a repository call is a parameter.
 */
module IncomeService {
  import opened Wrappers
  import opened Dates
  import opened Ledger
  import opened Repositories
  import opened Aggregation

  /** The body of an add: every field is required, the period is optional. */
  datatype IncomeRequest = IncomeRequest(
    description: string,
    amount: real,
    source: string,
    date: LocalDateTime,
    recurring: bool,
    recurrencePeriod: Option<string>)

  /** The body of an edit: an absent field means "keep the stored value". */
  datatype IncomeEditRequest = IncomeEditRequest(
    description: Option<string>,
    source: Option<string>,
    amount: Option<real>,
    date: Option<LocalDateTime>,
    recurring: Option<bool>,
    recurrencePeriod: Option<string>)

  /** The income an add saves: owned by the caller, every other field from the request. */
  function NewIncome(user: User, request: IncomeRequest): Income {
    Income(request.source, request.description, request.amount, request.date, request.recurring, request.recurrencePeriod, user)
  }

  /** `buildIncomeResponse`: the response carries the identifier but not the owner's name. */
  function BuildIncomeResponse(row: Row<Income>): (r: IncomeResponse)
    ensures r.id == Some(row.id) && r.username.None?
  {
    var i := row.value;
    IncomeResponse(Some(row.id), None, i.description, i.amount, i.source, i.date, i.recurring, i.recurrencePeriod)
  }

  /** Responses to distinct stored incomes are distinct: the identifier tells them apart. */
  lemma ResponsesOfRowsDiffer(a: Row<Income>, b: Row<Income>)
    requires a.id != b.id
    ensures BuildIncomeResponse(a) != BuildIncomeResponse(b)
  {
    assert BuildIncomeResponse(a).id != BuildIncomeResponse(b).id;
  }

  /** The list entry for a stored income: its response with its owner's name. */
  function ListEntry(row: Row<Income>): IncomeResponse {
    BuildIncomeResponse(row).(username := Some(row.value.owner.username))
  }

  /** `getListResponseEntity`: one entry per income, in the given order. */
  method ListResponses(incomes: seq<Row<Income>>) returns (r: Response<seq<IncomeResponse>>)
    ensures r.status == Ok && r.body.Some?
    ensures |r.body.value| == |incomes|
    ensures forall k :: 0 <= k < |incomes| ==> r.body.value[k] == ListEntry(incomes[k])
  {
    var responses: seq<IncomeResponse> := [];
    for i := 0 to |incomes|
      invariant |responses| == i
      invariant forall k :: 0 <= k < i ==> responses[k] == ListEntry(incomes[k])
    {
      var response := BuildIncomeResponse(incomes[i]);
      response := response.(username := Some(incomes[i].value.owner.username));
      responses := responses + [response];
    }
    return Response(Ok, Some(responses));
  }

  /** `findAllIncomes`: every stored income, in repository order. */
  method FindAllIncomes(table: Table<Income>) returns (r: Response<seq<IncomeResponse>>)
    ensures r.status == Ok && r.body.Some? && |r.body.value| == |table.rows|
    ensures forall k :: 0 <= k < |table.rows| ==> r.body.value[k] == ListEntry(table.rows[k])
  {
    r := ListResponses(table.rows);
  }

  /** The query `findRecurringIncomes`. */
  function RecurringIncomes(rows: seq<Row<Income>>): seq<Row<Income>> {
    Where(rows, (i: Income) => i.recurring)
  }

  /**
   * `findAllRecurringIncomes`: one entry per recurring income, in repository
   * order; every entry is a recurring income's, and every recurring income
   * has its entry.
   */
  method FindAllRecurringIncomes(table: Table<Income>) returns (r: Response<seq<IncomeResponse>>)
    ensures r.status == Ok && r.body.Some?
    ensures var recurring := RecurringIncomes(table.rows);
      |r.body.value| == |recurring| &&
      forall k :: 0 <= k < |recurring| ==> r.body.value[k] == ListEntry(recurring[k])
    ensures forall k :: 0 <= k < |r.body.value| ==> r.body.value[k].recurring
    ensures forall k :: 0 <= k < |table.rows| && table.rows[k].value.recurring ==>
      ListEntry(table.rows[k]) in r.body.value
  {
    var recurring := RecurringIncomes(table.rows);
    r := ListResponses(recurring);
    forall k | 0 <= k < |table.rows| && table.rows[k].value.recurring
      ensures ListEntry(table.rows[k]) in r.body.value
    {
      var j :| 0 <= j < |recurring| && recurring[j] == table.rows[k];
      assert r.body.value[j] == ListEntry(table.rows[k]);
    }
  }

  /**
   * `addIncome`: a failing save is a server error and leaves the table
   * alone; otherwise exactly one income is stored, under the next
   * identifier, and the response carries that identifier and the caller's name.
   */
  method AddIncome(table: Table<Income>, user: User, request: IncomeRequest, saveFails: bool)
    returns (r: Response<IncomeResponse>)
    requires table.Valid()
    modifies table
    ensures table.Valid()
    ensures saveFails ==> r == Empty(InternalServerError) && table.rows == old(table.rows) && table.nextId == old(table.nextId)
    ensures !saveFails ==>
      var row := Row(old(table.nextId), NewIncome(user, request));
      && r == Response(Created, Some(BuildIncomeResponse(row).(username := Some(user.username))))
      && table.rows == old(table.rows) + [row]
      && FindById(table.rows, row.id) == Some(row.value)
      && forall j :: j != row.id ==> FindById(table.rows, j) == FindById(old(table.rows), j)
  {
    var income := NewIncome(user, request);
    if saveFails {
      return Empty(InternalServerError);
    }
    var id := table.Insert(income);
    var response := BuildIncomeResponse(Row(id, income));
    response := response.(username := Some(income.owner.username));
    return Response(Created, Some(response));
  }

  /** The message of a successful delete. */
  function DeletedMessage(i: Income): string {
    "Income deleted with description: " + i.description
  }

  /**
   * `deleteIncome`. A lookup that throws, an unknown identifier and a
   * failing delete are server errors, another user's income is forbidden,
   * and all four leave the table alone; otherwise exactly that income goes.
   */
  method DeleteIncome(table: Table<Income>, user: User, id: nat, lookupFails: bool, deleteFails: bool)
    returns (r: Response<string>)
    requires table.Valid()
    modifies table
    ensures table.Valid() && table.nextId == old(table.nextId)
    ensures lookupFails ==> r == Empty(InternalServerError) && table.rows == old(table.rows)
    ensures !lookupFails && FindById(old(table.rows), id).None? ==>
      r == Empty(InternalServerError) && table.rows == old(table.rows)
    ensures !lookupFails && FindById(old(table.rows), id).Some? && FindById(old(table.rows), id).value.owner.id != user.id ==>
      r == Empty(Forbidden) && table.rows == old(table.rows)
    ensures !lookupFails && FindById(old(table.rows), id).Some? && FindById(old(table.rows), id).value.owner.id == user.id ==>
      if deleteFails then r == Empty(InternalServerError) && table.rows == old(table.rows)
      else
        && r == Response(Ok, Some(DeletedMessage(FindById(old(table.rows), id).value)))
        && FindById(table.rows, id).None?
        && forall j :: j != id ==> FindById(table.rows, j) == FindById(old(table.rows), j)
  {
    if lookupFails {
      return Empty(InternalServerError);
    }
    var found := FindById(table.rows, id);
    if found.None? {
      return Empty(InternalServerError);
    }
    var income := found.value;
    if income.owner.id != user.id {
      return Empty(Forbidden);
    }
    var message := "Income deleted with description: " + income.description;
    if deleteFails {
      return Empty(InternalServerError);
    }
    table.Delete(id);
    return Response(Ok, Some(message));
  }

  /**
   * `updateIncomeFields` as a value: each given field overwrites, each
   * absent one keeps, and then `recurring = false` clears the period.
   */
  function PatchedIncome(i: Income, request: IncomeEditRequest): (r: Income)
    ensures r.owner == i.owner
    ensures request.source.Some? ==> r.source == request.source.value
    ensures request.source.None? ==> r.source == i.source
    ensures request.description.Some? ==> r.description == request.description.value
    ensures request.description.None? ==> r.description == i.description
    ensures request.amount.Some? ==> r.amount == request.amount.value
    ensures request.amount.None? ==> r.amount == i.amount
    ensures request.date.Some? ==> r.date == request.date.value
    ensures request.date.None? ==> r.date == i.date
    ensures request.recurring.Some? ==> r.recurring == request.recurring.value
    ensures request.recurring.None? ==> r.recurring == i.recurring
    ensures request.recurring == Some(false) ==> r.recurrencePeriod.None?
    ensures request.recurring != Some(false) ==>
      r.recurrencePeriod == if request.recurrencePeriod.Some? then request.recurrencePeriod else i.recurrencePeriod
  {
    var period := if request.recurrencePeriod.Some? then request.recurrencePeriod else i.recurrencePeriod;
    Income(Patch(i.source, request.source), Patch(i.description, request.description), Patch(i.amount, request.amount),
           Patch(i.date, request.date), Patch(i.recurring, request.recurring),
           if request.recurring == Some(false) then None else period, i.owner)
  }

  /** An edit with no field given changes nothing. */
  lemma EmptyEditKeepsIncome(i: Income)
    ensures PatchedIncome(i, IncomeEditRequest(None, None, None, None, None, None)) == i
  {
  }

  /** Applying the same edit twice is applying it once. */
  lemma EditIsIdempotent(i: Income, request: IncomeEditRequest)
    ensures PatchedIncome(PatchedIncome(i, request), request) == PatchedIncome(i, request)
  {
  }

  /** An edit never leaves a non-recurring income with a period it set. */
  lemma EditedNonRecurringHasNoNewPeriod(i: Income, request: IncomeEditRequest)
    requires request.recurring.Some?
    ensures !PatchedIncome(i, request).recurring ==> PatchedIncome(i, request).recurrencePeriod.None?
  {
  }

  /** A request that turns recurrence off and names a period leaves no period. */
  lemma PeriodClearedEvenWhenGiven()
    ensures var i := Income("salary", "june", 100.0, DateTime(2024, 6, 1, 0), true, Some("MONTHLY"), User(1, "ana"));
      PatchedIncome(i, IncomeEditRequest(None, None, None, None, Some(false), Some("WEEKLY"))).recurrencePeriod.None?
  {
  }

  /** `updateIncomeFields`: the setters run one field after another on the loaded income. */
  method UpdateIncomeFields(income: Income, request: IncomeEditRequest) returns (updated: Income)
    ensures updated == PatchedIncome(income, request)
  {
    updated := income;
    if request.description.Some? {
      updated := updated.(description := request.description.value);
    }
    if request.source.Some? {
      updated := updated.(source := request.source.value);
    }
    if request.amount.Some? {
      updated := updated.(amount := request.amount.value);
    }
    if request.date.Some? {
      updated := updated.(date := request.date.value);
    }
    if request.recurring.Some? {
      updated := updated.(recurring := request.recurring.value);
    }
    if request.recurrencePeriod.Some? {
      updated := updated.(recurrencePeriod := request.recurrencePeriod);
    }
    if request.recurring.Some? && !request.recurring.value {
      updated := updated.(recurrencePeriod := None);
    }
  }

  /**
   * `editIncome`. A lookup that throws and a failing save are server
   * errors, an unknown identifier is not found, another user's income is
   * forbidden, and all of these leave the table alone; otherwise the income
   * takes the patched values under its identifier and the response shows
   * them with the caller's name.
   */
  method EditIncome(table: Table<Income>, user: User, id: nat, request: IncomeEditRequest, lookupFails: bool, saveFails: bool)
    returns (r: Response<IncomeResponse>)
    requires table.Valid()
    modifies table
    ensures table.Valid() && table.nextId == old(table.nextId)
    ensures lookupFails ==> r == Response(InternalServerError, None) && table.rows == old(table.rows)
    ensures !lookupFails && FindById(old(table.rows), id).None? ==>
      r == Response(NotFound, None) && table.rows == old(table.rows)
    ensures !lookupFails && FindById(old(table.rows), id).Some? && FindById(old(table.rows), id).value.owner.id != user.id ==>
      r == Empty(Forbidden) && table.rows == old(table.rows)
    ensures !lookupFails && FindById(old(table.rows), id).Some? && FindById(old(table.rows), id).value.owner.id == user.id ==>
      var patched := PatchedIncome(FindById(old(table.rows), id).value, request);
      if saveFails then r == Response(InternalServerError, None) && table.rows == old(table.rows)
      else
        && r == Response(Ok, Some(BuildIncomeResponse(Row(id, patched)).(username := Some(user.username))))
        && FindById(table.rows, id) == Some(patched)
        && forall j :: j != id ==> FindById(table.rows, j) == FindById(old(table.rows), j)
  {
    if lookupFails {
      return Response(InternalServerError, None);
    }
    var found := FindById(table.rows, id);
    if found.None? {
      return Response(NotFound, None);
    }
    if found.value.owner.id != user.id {
      return Empty(Forbidden);
    }
    var updated := UpdateIncomeFields(found.value, request);
    if saveFails {
      return Response(InternalServerError, None);
    }
    table.Update(id, updated);
    var response := BuildIncomeResponse(Row(id, updated));
    response := response.(username := Some(user.username));
    return Response(Ok, Some(response));
  }
}
