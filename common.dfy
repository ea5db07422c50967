/** Values shared by every handler: optional request fields, loosely typed JSON
    request values, and the HTTP replies the handlers send. */
module Common {

  /** A request field that may be absent (`undefined` in the request body). */
  datatype Option<+T> = None | Some(value: T)

  /** Why a request was refused with 400; one constructor per message the handlers send. */
  datatype Problem =
    | InvalidStatus          // "Invalid status"
    | InvalidQuantity        // "Invalid quantity"
    | MissingData            // "Invalid or missing data"
    | InvalidAmount          // "Invalid order amount"
    | RefundExceedsAmount    // "Refunded amount cannot exceed order amount"
    | AlreadyInCart          // "Product already exists in the cart"
    | MissingBody            // "Bad Request: Missing request body"
    | InvalidProductData     // "Bad Request: Missing or invalid required data"
    | DuplicateSku           // "Product with the same SKU already exists"
    | MissingSku             // "Bad Request: Missing SKU parameter"
    | MissingId              // "User id is required", "Address id is required"
    | AlreadyHasAddress      // "User already has a shipping address"
    | WebhookError           // "Webhook error"

  /** Which lookup failed when a request was refused with 404. */
  datatype Missing =
    | NoUser | NoAddress | NoOrder | NoProduct | NoOrderItem | NoCart | NoCartItem

  /** The status of the reply a handler sends. */
  datatype Code =
    | Success                       // 200
    | Created                       // 201
    | BadRequest(problem: Problem)  // 400
    | Unauthorized                  // 401
    | NotFound(missing: Missing)    // 404
    | ServerError                   // 500: an error from the data store, rethrown

  /** The numeric HTTP status of a reply. */
  function HttpStatus(c: Code): (n: nat)
    ensures 200 <= n < 600
    ensures n < 300 <==> c.Success? || c.Created?
  {
    match c
    case Success => 200
    case Created => 201
    case BadRequest(_) => 400
    case Unauthorized => 401
    case NotFound(_) => 404
    case ServerError => 500
  }

  /** The reply of a read-only handler: the rows it returns, or the error status. */
  datatype Result<+T> = Ok(value: T) | Err(code: Code)

  /** A JSON value from a request body, as far as the handlers inspect it. */
  datatype Json = Absent | Null | Bool(b: bool) | Num(n: real) | Str(s: string)

  /** JavaScript truthiness of an optional string: present and non-empty. */
  predicate Present(s: Option<string>)
  {
    s.Some? && s.value != ""
  }

  /** JavaScript truthiness of an optional number: present and non-zero. */
  predicate Truthy<T(==)>(x: Option<T>, zero: T)
  {
    x.Some? && x.value != zero
  }

  /** `!!v && typeof v === "number"`: a number other than zero. */
  predicate NonZeroNumber(v: Json)
  {
    v.Num? && v.n != 0.0
  }
}
