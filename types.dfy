/**
 * The record shapes the storefront passes between its stores and
 * composables (src/types/index.ts). Optional properties are `Option`s;
 * JavaScript numbers that hold cents or counts are integers.
 */
module Types {
  import opened Wrappers

  datatype ProductType = Physical | Digital

  datatype Money = Money(cents: int, currency: string, formatted: string)

  datatype Category = Category(id: string, name: string, position: int, productsCount: int)

  datatype Product = Product(
    id: string,
    name: string,
    description: Option<string>,
    priceCents: int,
    price: Money,
    productType: ProductType,
    active: bool,
    photoUrl: Option<string>,
    category: Category)

  datatype Customer = Customer(
    id: string,
    firstName: string,
    lastName: string,
    email: string,
    phone: string,
    fullName: string)

  datatype CustomerForm = CustomerForm(firstName: string, lastName: string, email: string, phone: string)

  datatype Address = Address(
    id: Option<string>,
    unitFloorBuilding: Option<string>,
    street: string,
    barangay: string,
    city: string,
    province: string,
    postalCode: Option<string>,
    landmark: Option<string>,
    remarks: Option<string>)

  /** A line of the cart; `photoUrl` is `null` (None) when the product has none. */
  datatype CartItem = CartItem(
    productId: string,
    name: string,
    priceCents: int,
    productType: ProductType,
    quantity: int,
    photoUrl: Option<string>)

  datatype User = User(
    id: string,
    firstName: string,
    lastName: string,
    email: string,
    role: string,
    createdAt: string)

  datatype ApiError = ApiError(message: string, field: Option<string>)

  /** The `{ success, data?, errors?, message? }` value the composables return. */
  datatype MutationResponse<T> = MutationResponse(
    success: bool,
    data: Option<T>,
    errors: Option<seq<ApiError>>,
    message: Option<string>)

  /**
   * How a GraphQL call ended, as the composables see it: it threw, or it
   * returned a result whose `data.<mutation>` payload may be missing.
   */
  datatype CallOutcome<P> = Threw | Returned(payload: Option<P>)

  /** A response that failed with the given errors and message. */
  function Failure<T>(errors: seq<ApiError>, message: string): MutationResponse<T> {
    MutationResponse(false, None, Some(errors), Some(message))
  }

  /** A single error with no field, as the composables build for a thrown error. */
  function OneError(message: string): seq<ApiError> {
    [ApiError(message, None)]
  }

  /** `errors.map(err => ({ message: err.message }))`: one error per GraphQL message, in order. */
  function ErrorsOf(messages: seq<string>): (r: seq<ApiError>)
    ensures |r| == |messages|
    ensures forall i :: 0 <= i < |messages| ==> r[i] == ApiError(messages[i], None)
  {
    if messages == [] then [] else [ApiError(messages[0], None)] + ErrorsOf(messages[1..])
  }
}
