/**
 * The product composables (src/composables/useProducts.ts): the filter the
 * product search sends, and how the product and category mutations'
 * results are classified. The search debounce and the GraphQL transport
 * are not modelled; what a call returned is a parameter.
 */
module Products {
  import opened Wrappers
  import opened Types

  // ---------------------------------------------------------------------
  // useProductSearch: filter

  /** The filter object: each key is present (Some) or not. `active` is only ever set to true. */
  datatype ProductFilter = ProductFilter(search: Option<string>, categoryId: Option<string>, active: Option<bool>)

  /** The search, category and active-only inputs turned into a filter, or null when no key was set. */
  function BuildFilter(searchTerm: string, selectedCategory: Option<string>, activeOnly: bool): (r: Option<ProductFilter>)
    ensures r.None? <==> searchTerm == "" && (selectedCategory.None? || selectedCategory.value == "") && !activeOnly
    ensures r.Some? ==> (r.value.search.Some? <==> searchTerm != "")
    ensures r.Some? && r.value.search.Some? ==> r.value.search.value == searchTerm
    ensures r.Some? ==> (r.value.categoryId.Some? <==> selectedCategory.Some? && selectedCategory.value != "")
    ensures r.Some? && r.value.categoryId.Some? ==> r.value.categoryId == selectedCategory
    ensures r.Some? ==> (r.value.active.Some? <==> activeOnly)
    ensures r.Some? ==> r.value.active != Some(false)
  {
    var search := if searchTerm != "" then Some(searchTerm) else None;
    var categoryId := if selectedCategory.Some? && selectedCategory.value != "" then selectedCategory else None;
    var active := if activeOnly then Some(true) else None;
    if search.None? && categoryId.None? && active.None? then None
    else Some(ProductFilter(search, categoryId, active))
  }

  /** With the initial state (no search, no category, active only) the filter asks for active products only. */
  lemma InitialFilter()
    ensures BuildFilter("", None, true) == Some(ProductFilter(None, None, Some(true)))
  {
  }

  // ---------------------------------------------------------------------
  // Mutation results

  /** `{ success, product?, errors? }` (or `category?`) as these composables return it. */
  datatype ItemResult<T> = ItemResult(success: bool, item: Option<T>, errors: Option<seq<ApiError>>)

  /** The `data.<mutation>` payload: the created or updated item and the errors. */
  datatype ItemPayload<T> = ItemPayload(item: Option<T>, errors: Option<seq<ApiError>>)

  predicate PayloadErrors<T>(payload: Option<ItemPayload<T>>) {
    payload.Some? && payload.value.errors.Some? && |payload.value.errors.value| > 0
  }

  /**
   * The shared shape of createProduct, updateProduct and createCategory:
   * non-empty payload errors fail with those errors, anything else
   * succeeds with whatever item came back, and a throw fails with the
   * operation's message.
   */
  function ClassifyItem<T>(outcome: CallOutcome<ItemPayload<T>>, unexpected: string): (r: ItemResult<T>)
    ensures outcome.Threw? ==> r == ItemResult(false, None, Some(OneError(unexpected)))
    ensures outcome.Returned? ==> (r.success <==> !PayloadErrors(outcome.payload))
    ensures outcome.Returned? && PayloadErrors(outcome.payload) ==> r.errors == outcome.payload.value.errors
    ensures outcome.Returned? && !PayloadErrors(outcome.payload) ==>
      r.item == (if outcome.payload.Some? then outcome.payload.value.item else None) && r.errors.None?
  {
    match outcome
    case Threw => ItemResult(false, None, Some(OneError(unexpected)))
    case Returned(payload) =>
      if PayloadErrors(payload) then ItemResult(false, None, payload.value.errors)
      else ItemResult(true, if payload.Some? then payload.value.item else None, None)
  }

  /** A result without a payload still counts as a success, with no item. */
  lemma MissingPayloadSucceeds<T>(unexpected: string)
    ensures ClassifyItem<T>(Returned(None), unexpected) == ItemResult(true, None, None)
  {
  }

  const CreateProductUnexpected := "An unexpected error occurred while creating the product"
  const UpdateProductUnexpected := "An unexpected error occurred while updating the product"
  const CreateCategoryUnexpected := "An unexpected error occurred while creating the category"

  function CreateProduct(outcome: CallOutcome<ItemPayload<Product>>): (r: ItemResult<Product>)
    ensures outcome.Threw? ==> r == ItemResult(false, None, Some(OneError(CreateProductUnexpected)))
    ensures outcome.Returned? ==> (r.success <==> !PayloadErrors(outcome.payload))
  {
    ClassifyItem(outcome, CreateProductUnexpected)
  }

  function UpdateProduct(outcome: CallOutcome<ItemPayload<Product>>): (r: ItemResult<Product>)
    ensures outcome.Threw? ==> r == ItemResult(false, None, Some(OneError(UpdateProductUnexpected)))
    ensures outcome.Returned? ==> (r.success <==> !PayloadErrors(outcome.payload))
  {
    ClassifyItem(outcome, UpdateProductUnexpected)
  }

  function CreateCategory(outcome: CallOutcome<ItemPayload<Category>>): (r: ItemResult<Category>)
    ensures outcome.Threw? ==> r == ItemResult(false, None, Some(OneError(CreateCategoryUnexpected)))
    ensures outcome.Returned? ==> (r.success <==> !PayloadErrors(outcome.payload))
  {
    ClassifyItem(outcome, CreateCategoryUnexpected)
  }

  // ---------------------------------------------------------------------
  // createProductWithPhoto

  /** The body of a successful multipart request: top-level GraphQL errors and `data.createProduct`. */
  datatype GraphQLResult = GraphQLResult(errors: Option<seq<string>>, payload: Option<ItemPayload<Product>>)

  /**
   * How the upload ended: the request failed or answered with a status
   * that is not OK (both throw), or an OK answer whose JSON is `result`
   * (null when the body was null).
   */
  datatype UploadOutcome = RequestFailed | NotOk(status: int) | Ok(result: Option<GraphQLResult>)

  const PhotoUploadFailed := "Failed to create product with photo. Please try again."

  /** The `Authorization` header the upload sends: only with a non-empty token. */
  function AuthHeaders(token: Option<string>): (r: seq<(string, string)>)
    ensures token.Some? && token.value != "" ==> r == [("Authorization", "Bearer " + token.value)]
    ensures !(token.Some? && token.value != "") ==> r == []
  {
    if token.Some? && token.value != "" then [("Authorization", "Bearer " + token.value)] else []
  }

  /**
   * createProductWithPhoto: top-level GraphQL errors are checked before
   * payload errors; a failed request or a non-OK status gives the one
   * generic failure.
   */
  function ClassifyUpload(outcome: UploadOutcome): (r: ItemResult<Product>)
    ensures outcome.RequestFailed? || outcome.NotOk? ==> r == ItemResult(false, None, Some(OneError(PhotoUploadFailed)))
    ensures (outcome.Ok? && outcome.result.Some? && outcome.result.value.errors.Some?
             && |outcome.result.value.errors.value| > 0) ==>
      r == ItemResult(false, None, Some(ErrorsOf(outcome.result.value.errors.value)))
    ensures outcome.Ok? ==> (r.success <==>
      !(outcome.result.Some? && outcome.result.value.errors.Some? && |outcome.result.value.errors.value| > 0)
      && !(outcome.result.Some? && PayloadErrors(outcome.result.value.payload)))
    ensures (outcome.Ok? && outcome.result.Some?
             && !(outcome.result.value.errors.Some? && |outcome.result.value.errors.value| > 0)
             && PayloadErrors(outcome.result.value.payload)) ==>
      r == ItemResult(false, None, outcome.result.value.payload.value.errors)
    ensures outcome.Ok? && r.success ==>
      r.item == (if outcome.result.Some? && outcome.result.value.payload.Some? then outcome.result.value.payload.value.item else None)
      && r.errors.None?
  {
    match outcome
    case Ok(result) =>
      if result.Some? && result.value.errors.Some? && |result.value.errors.value| > 0 then
        ItemResult(false, None, Some(ErrorsOf(result.value.errors.value)))
      else if result.Some? && PayloadErrors(result.value.payload) then
        ItemResult(false, None, result.value.payload.value.errors)
      else
        ItemResult(true, if result.Some? && result.value.payload.Some? then result.value.payload.value.item else None, None)
    case _ => ItemResult(false, None, Some(OneError(PhotoUploadFailed)))
  }

  /** When both kinds of error are present, the top-level GraphQL errors are the ones reported. */
  lemma UploadTopLevelErrorsFirst(messages: seq<string>, payload: ItemPayload<Product>)
    requires |messages| > 0 && payload.errors.Some? && |payload.errors.value| > 0
    ensures ClassifyUpload(Ok(Some(GraphQLResult(Some(messages), Some(payload))))).errors == Some(ErrorsOf(messages))
  {
  }
}
