/** The JSON responses the handlers send, and the shape every one of them keeps. */
module Http {
  import opened Values

  const Ok200 := 200
  const Created201 := 201
  const BadRequest400 := 400
  const NotFound404 := 404
  const InternalError500 := 500

  /** The `error` member of a failure body. */
  datatype Detail =
    | Omitted                     // no `error` member at all
    | NullDetail                  // `error: null`
    | ErrorObject(e: StoreError)  // `error` (the whole error object)
    | ErrorMessage(text: string)  // `error: error.message`

  /** The JSON body; every success body carries `status: true`, `Fail` carries `status: false`. */
  datatype Body =
    | Fail(message: string, error: Detail)
    | Created(message: string, product: Option<ProductRow>)
    | Listed(page: int, total: nat, totalPages: nat, data: seq<ProductRow>)
    | Found(row: ProductRow)
    | Updated(message: string, data: seq<ProductRow>)
    | Deleted(message: string)
    | QuantityUpdated(message: string, updated: ProductRow)

  datatype Response = Response(code: int, body: Body)

  /** The `status` flag of the body. */
  function StatusFlag(r: Response): bool { !r.body.Fail? }

  /** Every response uses one of the five codes, and its flag is true exactly
      for the 2xx codes. */
  predicate WellFormed(r: Response) {
    r.code in {Ok200, Created201, BadRequest400, NotFound404, InternalError500} &&
    (StatusFlag(r) <==> r.code < 300)
  }

  /** The response of every handler's catch block. */
  function Internal(detail: Detail): (r: Response)
    ensures WellFormed(r) && r.code == InternalError500 && !StatusFlag(r)
    ensures r.body == Fail("Internal server error", detail)
  {
    Response(InternalError500, Fail("Internal server error", detail))
  }

  function Failure(code: int, message: string, detail: Detail): (r: Response)
    requires code in {BadRequest400, NotFound404}
    ensures WellFormed(r) && r.code == code && !StatusFlag(r)
    ensures r.body == Fail(message, detail)
  {
    Response(code, Fail(message, detail))
  }
}
