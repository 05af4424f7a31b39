/** JavaScript-level values that reach the controller, and the rows and calls
    exchanged with the hosted backend (its database table and its storage bucket). */
module Values {

  datatype Option<+T> = None | Some(value: T)

  /** A field of a request body as the handler sees it after destructuring.
      `Undefined` is a key that is absent from the body. */
  datatype JsValue = Undefined | Null | Bool(b: bool) | Num(n: int) | Str(s: string)

  /** The columns of a row of the `products` table the handlers write. */
  datatype Columns = Columns(
    name: JsValue,
    description: JsValue,
    category: JsValue,   // the `type` column
    price: JsValue,
    quantity: JsValue,
    imageUrl: JsValue)

  /** A row as the store hands it back, with its store-assigned id. */
  datatype ProductRow = ProductRow(id: int, columns: Columns)

  /** The file that the upload middleware attaches to a create request. */
  datatype UploadedFile = UploadedFile(originalName: string, mimeType: string, buffer: seq<bv8>)

  /** An error object reported or thrown by the store client. */
  datatype StoreError = StoreError(message: string)

  /** What one awaited store call yields: data, a reported `error`, or a
      rejected promise (an exception that reaches the handler's catch). */
  datatype StoreResult<+T> = Ok(data: T) | Err(error: StoreError) | Thrown(error: StoreError)

  /** What the paged listing query returns: the rows of the window and the
      exact count of all rows that match the filter. */
  datatype PageData = PageData(rows: seq<ProductRow>, count: nat)

  const ProductsTable := "products"
  const ProductsBucket := "products"

  /** One call issued to the backend; a handler's trace is the sequence of them. */
  datatype Call =
    | Upload(bucket: string, objectName: string, bytes: seq<bv8>, contentType: string)
    | GetPublicUrl(bucket: string, objectName: string)
    | Insert(table: string, rows: seq<Columns>)
    | SelectPage(table: string, quantityAbove: int, from: int, to: int)
    | SelectSingle(table: string, id: string)
    | Update(table: string, patch: Columns, id: string)
    | UpdateQuantity(table: string, quantity: JsValue, id: string)
    | Delete(table: string, id: string)
}
