/**
 * The uniform response envelope (ApiResponse) and the HTTP outcome around it.
 * Message text is reduced to which message it is and the numbers it embeds;
 * the product it names is identified by its id.
 */
module ApiResponses {
  import opened Options
  import opened Catalog
  import opened CartLines

  /** A user-facing message: none (null or empty), "sold out", or "only `left` units left". */
  datatype Message =
    | NoMessage
    | SoldOut(product: Option<ProductId>)
    | OnlyLeft(product: Option<ProductId>, left: int)

  /** What the envelope's Data carries. */
  datatype Payload =
    | NoData
    | Count(n: nat)
    | Items(lines: seq<Line>)
    | QuantityUpdate(quantity: int, totalPrice: int, productTotalPrice: int)
    | Notes(notes: seq<Message>)

  /** ApiResponse: Status, StatusCode, Message, Data. The controllers never set StatusCode (it stays 0) nor Errors. */
  datatype ApiResponse = ApiResponse(status: bool, statusCode: int, message: Message, data: Payload)

  /** The HTTP outcome: BadRequest() carries no envelope, Ok(...) one. */
  datatype ActionResult = BadRequest | Ok(body: ApiResponse)

  function Reply(status: bool, message: Message, data: Payload): ApiResponse
  {
    ApiResponse(status, 0, message, data)
  }
}
