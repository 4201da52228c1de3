/**
 * The sub-category endpoints: create one of the caller's expense
 * sub-categories, and list the caller's sub-categories.
 */
module ExpenseSubCategoryService {
  import opened Wrappers
  import opened Ledger
  import opened Repositories
  import opened Aggregation

  datatype SubCategoryRequest = SubCategoryRequest(name: string, category: ExpenseCategory)

  datatype SubCategoryResponse = SubCategoryResponse(
    id: nat, categoryName: string, username: string, subCategoryName: string)

  /** The response for a stored sub-category, shown to `user`. */
  function ResponseOf(row: Row<SubCategory>, user: User): (r: SubCategoryResponse)
    ensures r.id == row.id && r.username == user.username
  {
    SubCategoryResponse(row.id, DisplayName(row.value.category), user.username, row.value.name)
  }

  /** Responses keep the category apart: equal category names mean equal categories. */
  lemma ResponseDeterminesCategory(a: Row<SubCategory>, b: Row<SubCategory>, user: User)
    requires ResponseOf(a, user).categoryName == ResponseOf(b, user).categoryName
    ensures a.value.category == b.value.category
  {
    DisplayNameInjective(a.value.category, b.value.category);
  }

  /**
   * `createSubCategory`: a failing save is a server error with no body and
   * leaves the table alone; otherwise exactly one sub-category, owned by the
   * caller, is stored under the next identifier.
   */
  method CreateSubCategory(table: Table<SubCategory>, user: User, request: SubCategoryRequest, saveFails: bool)
    returns (r: Response<SubCategoryResponse>)
    requires table.Valid()
    modifies table
    ensures table.Valid()
    ensures saveFails ==> r == Empty(InternalServerError) && table.rows == old(table.rows) && table.nextId == old(table.nextId)
    ensures !saveFails ==>
      var row := Row(old(table.nextId), SubCategory(request.category, user, request.name));
      && r == Response(Created, Some(ResponseOf(row, user)))
      && r.body.value.categoryName == DisplayName(request.category)
      && table.rows == old(table.rows) + [row]
      && forall j :: j != row.id ==> FindById(table.rows, j) == FindById(old(table.rows), j)
  {
    var subCategory := SubCategory(request.category, user, request.name);
    if saveFails {
      return Empty(InternalServerError);
    }
    var id := table.Insert(subCategory);
    var response := SubCategoryResponse(id, DisplayName(subCategory.category), subCategory.owner.username, subCategory.name);
    return Response(Created, Some(response));
  }

  /** The query `findAllByUser`. */
  function SubCategoriesOf(rows: seq<Row<SubCategory>>, user: User): seq<Row<SubCategory>> {
    Where(rows, (s: SubCategory) => s.owner.id == user.id)
  }

  /**
   * `getUserSubCategories`: a failing lookup is a server error; otherwise
   * one response per sub-category of the caller, in repository order, each
   * with the caller's name, and none for another user's.
   */
  method GetUserSubCategories(table: Table<SubCategory>, user: User, lookupFails: bool)
    returns (r: Response<seq<SubCategoryResponse>>)
    ensures lookupFails ==> r == Empty(InternalServerError)
    ensures !lookupFails ==>
      var own := SubCategoriesOf(table.rows, user);
      && r.status == Ok && r.body.Some? && |r.body.value| == |own|
      && (forall k :: 0 <= k < |own| ==> r.body.value[k] == ResponseOf(own[k], user))
      && (forall k :: 0 <= k < |table.rows| && table.rows[k].value.owner.id == user.id ==>
            ResponseOf(table.rows[k], user) in r.body.value)
      && (forall k :: 0 <= k < |own| ==> own[k] in table.rows && own[k].value.owner.id == user.id)
  {
    if lookupFails {
      return Empty(InternalServerError);
    }
    var subCategories := SubCategoriesOf(table.rows, user);
    var responses: seq<SubCategoryResponse> := [];
    for i := 0 to |subCategories|
      invariant |responses| == i
      invariant forall k :: 0 <= k < i ==> responses[k] == ResponseOf(subCategories[k], user)
    {
      var s := subCategories[i];
      responses := responses + [SubCategoryResponse(s.id, DisplayName(s.value.category), user.username, s.value.name)];
    }
    forall k | 0 <= k < |table.rows| && table.rows[k].value.owner.id == user.id
      ensures ResponseOf(table.rows[k], user) in responses
    {
      var j :| 0 <= j < |subCategories| && subCategories[j] == table.rows[k];
      assert responses[j] == ResponseOf(table.rows[k], user);
    }
    return Response(Ok, Some(responses));
  }
}
