/** The six request handlers of the product controller. Each handler is a
    function from the request fields it reads and the replies of the store
    calls it awaits (given in the order the handler would issue them) to the
    response it sends and the trace of the calls it actually issued. A reply
    for a call that is never issued is ignored. */
module ProductController {
  import opened Values
  import opened Http
  import opened Pagination
  import opened ObjectNames

  datatype Handled = Handled(response: Response, calls: seq<Call>)

  predicate InsertIssued(calls: seq<Call>) { exists c :: c in calls && c.Insert? }

  /** `data[0]`, which is `undefined` on an empty array. */
  function First(rows: seq<ProductRow>): (r: Option<ProductRow>)
    ensures r.Some? <==> |rows| > 0
    ensures r.Some? ==> r.value == rows[0]
  {
    if |rows| == 0 then None else Some(rows[0])
  }

  /** The insert step of addProduct, after `calls` were issued before it. */
  function InsertStep(row: Columns, calls: seq<Call>, insert: StoreResult<seq<ProductRow>>): (h: Handled)
    ensures WellFormed(h.response)
    ensures h.calls == calls + [Insert(ProductsTable, [row])] && InsertIssued(h.calls)
    ensures insert.Thrown? ==> h.response == Internal(ErrorMessage(insert.error.message))
    ensures insert.Err? ==>
      h.response == Failure(BadRequest400, "Error in creating product", ErrorMessage(insert.error.message))
    ensures insert.Ok? ==>
      h.response == Response(Created201, Created("Product created successfully", First(insert.data)))
  {
    var issued := calls + [Insert(ProductsTable, [row])];
    assert issued[|calls|] in issued;
    match insert
    case Thrown(e) => Handled(Internal(ErrorMessage(e.message)), issued)
    case Err(e) => Handled(Failure(BadRequest400, "Error in creating product", ErrorMessage(e.message)), issued)
    case Ok(rows) => Handled(Response(Created201, Created("Product created successfully", First(rows))), issued)
  }

  /** POST /products. The body's own `image_url` is never read: the row gets
      null, or the public URL of the uploaded file. */
  function AddProduct(body: Columns, file: Option<UploadedFile>, now: nat,
                      upload: StoreResult<()>, publicUrl: string,
                      insert: StoreResult<seq<ProductRow>>): (h: Handled)
    ensures WellFormed(h.response)
    // without a file exactly one call, an insert whose row has a null image_url
    ensures file.None? ==> h.calls == [Insert(ProductsTable, [body.(imageUrl := Null)])]
    // with a file the first call uploads it under the timestamped name, into the bucket
    ensures file.Some? ==>
      |h.calls| >= 1 &&
      h.calls[0] == Upload(ProductsBucket, ObjectName(now, file.value.originalName),
                           file.value.buffer, file.value.mimeType)
    // a failed upload ends the request: nothing is inserted
    ensures InsertIssued(h.calls) <==> file.None? || upload.Ok?
    ensures file.Some? && !upload.Ok? ==> |h.calls| == 1
    ensures file.Some? && upload.Err? ==>
      h.response == Failure(BadRequest400, "Image upload failed", ErrorMessage(upload.error.message))
    // a stored file is resolved to its public URL, which the inserted row carries
    ensures file.Some? && upload.Ok? ==>
      h.calls[1..] == [GetPublicUrl(ProductsBucket, ObjectName(now, file.value.originalName)),
                       Insert(ProductsTable, [body.(imageUrl := Str(publicUrl))])]
    // 201 exactly when the insert is issued and succeeds, with its first row
    ensures h.response.code == Created201 <==> InsertIssued(h.calls) && insert.Ok?
    ensures h.response.code == Created201 ==>
      h.response.body == Created("Product created successfully", First(insert.data))
    ensures InsertIssued(h.calls) && insert.Err? ==>
      h.response == Failure(BadRequest400, "Error in creating product", ErrorMessage(insert.error.message))
    // an exception from either awaited call is a 500 with the exception's message
    ensures (file.Some? && upload.Thrown?) ==> h.response == Internal(ErrorMessage(upload.error.message))
    ensures (InsertIssued(h.calls) && insert.Thrown?) ==> h.response == Internal(ErrorMessage(insert.error.message))
  {
    match file
    case None => InsertStep(body.(imageUrl := Null), [], insert)
    case Some(f) =>
      var name := ObjectName(now, f.originalName);
      var up := Upload(ProductsBucket, name, f.buffer, f.mimeType);
      match upload
      case Thrown(e) => Handled(Internal(ErrorMessage(e.message)), [up])
      case Err(e) => Handled(Failure(BadRequest400, "Image upload failed", ErrorMessage(e.message)), [up])
      case Ok(_) =>
        var h := InsertStep(body.(imageUrl := Str(publicUrl)), [up, GetPublicUrl(ProductsBucket, name)], insert);
        assert h.calls[1..] == [GetPublicUrl(ProductsBucket, name), Insert(ProductsTable, [body.(imageUrl := Str(publicUrl))])];
        h
  }

  /** GET /products?page=... One paged query over the products with a
      positive quantity, with an exact count. */
  function ListProducts(query: Option<int>, select: StoreResult<PageData>): (h: Handled)
    ensures WellFormed(h.response)
    ensures h.calls == [SelectPage(ProductsTable, 0, WindowFrom(PageNumber(query)), WindowTo(PageNumber(query)))]
    ensures h.response.code == Ok200 <==> select.Ok?
    ensures select.Ok? ==>
      h.response.body == Listed(PageNumber(query), select.data.count,
                                TotalPages(select.data.count), select.data.rows)
    ensures select.Err? ==> h.response == Failure(BadRequest400, "Error fetching products", ErrorObject(select.error))
    ensures select.Thrown? ==> h.response == Internal(ErrorObject(select.error))
  {
    var page := PageNumber(query);
    var calls := [SelectPage(ProductsTable, 0, WindowFrom(page), WindowTo(page))];
    match select
    case Thrown(e) => Handled(Internal(ErrorObject(e)), calls)
    case Err(e) => Handled(Failure(BadRequest400, "Error fetching products", ErrorObject(e)), calls)
    case Ok(pd) => Handled(Response(Ok200, Listed(page, pd.count, TotalPages(pd.count), pd.rows)), calls)
  }

  /** Leaving out `page`, or passing 0 or a value that is not a number,
      behaves exactly like asking for page 1. */
  lemma ListDefaultsToFirstPage(select: StoreResult<PageData>)
    ensures ListProducts(None, select) == ListProducts(Some(1), select)
    ensures ListProducts(Some(0), select) == ListProducts(Some(1), select)
  {}

  /** GET /products/:id. A single-row lookup by id. */
  function GetProductById(id: string, single: StoreResult<Option<ProductRow>>): (h: Handled)
    ensures WellFormed(h.response)
    ensures h.calls == [SelectSingle(ProductsTable, id)]
    // a store error and a missing row are both "not found"; 200 only with a row
    ensures h.response.code == NotFound404 <==> single.Err? || single == Ok(None)
    ensures h.response.code == Ok200 <==> single.Ok? && single.data.Some?
    ensures h.response.code == Ok200 ==> h.response.body == Found(single.data.value)
    ensures single.Err? ==> h.response == Failure(NotFound404, "Product not found", ErrorObject(single.error))
    ensures single == Ok(None) ==> h.response == Failure(NotFound404, "Product not found", NullDetail)
    ensures single.Thrown? ==> h.response == Internal(ErrorObject(single.error))
  {
    var calls := [SelectSingle(ProductsTable, id)];
    match single
    case Thrown(e) => Handled(Internal(ErrorObject(e)), calls)
    case Err(e) => Handled(Failure(NotFound404, "Product not found", ErrorObject(e)), calls)
    case Ok(None) => Handled(Failure(NotFound404, "Product not found", NullDetail), calls)
    case Ok(Some(row)) => Handled(Response(Ok200, Found(row)), calls)
  }

  /** PUT /products/:id. Writes all six columns from the body, image_url included. */
  function UpdateProduct(id: string, body: Columns, update: StoreResult<seq<ProductRow>>): (h: Handled)
    ensures WellFormed(h.response)
    ensures h.calls == [Update(ProductsTable, body, id)]
    // success whenever the store reports no error, even if no row matched
    ensures h.response.code == Ok200 <==> update.Ok?
    ensures update.Ok? ==> h.response.body == Updated("Product updated successfully", update.data)
    ensures update.Err? ==> h.response == Failure(BadRequest400, "Error updating product", ErrorObject(update.error))
    ensures update.Thrown? ==> h.response == Internal(ErrorObject(update.error))
  {
    var calls := [Update(ProductsTable, body, id)];
    match update
    case Thrown(e) => Handled(Internal(ErrorObject(e)), calls)
    case Err(e) => Handled(Failure(BadRequest400, "Error updating product", ErrorObject(e)), calls)
    case Ok(rows) => Handled(Response(Ok200, Updated("Product updated successfully", rows)), calls)
  }

  /** DELETE /products/:id. */
  function DeleteProduct(id: string, del: StoreResult<()>): (h: Handled)
    ensures WellFormed(h.response)
    ensures h.calls == [Delete(ProductsTable, id)]
    // success whenever the store reports no error, whether or not a row existed
    ensures h.response.code == Ok200 <==> del.Ok?
    ensures del.Ok? ==> h.response.body == Deleted("Product deleted successfully")
    ensures del.Err? ==> h.response == Failure(BadRequest400, "Error deleting product", ErrorObject(del.error))
    ensures del.Thrown? ==> h.response == Internal(ErrorObject(del.error))
  {
    var calls := [Delete(ProductsTable, id)];
    match del
    case Thrown(e) => Handled(Internal(ErrorObject(e)), calls)
    case Err(e) => Handled(Failure(BadRequest400, "Error deleting product", ErrorObject(e)), calls)
    case Ok(_) => Handled(Response(Ok200, Deleted("Product deleted successfully")), calls)
  }

  /** Quantity-only update by id. Only an absent `quantity` is rejected;
      0, null and any other value are sent to the store. */
  function UpdateProductQuantity(id: string, quantity: JsValue, update: StoreResult<seq<ProductRow>>): (h: Handled)
    ensures WellFormed(h.response)
    // a missing quantity is answered before, and instead of, any store call
    ensures h.calls == [] <==> quantity == Undefined
    ensures quantity == Undefined ==> h.response == Failure(BadRequest400, "Quantity is required", Omitted)
    ensures quantity != Undefined ==> h.calls == [UpdateQuantity(ProductsTable, quantity, id)]
    // 200 exactly when the update ran without error and touched a row
    ensures h.response.code == Ok200 <==> quantity != Undefined && update.Ok? && |update.data| > 0
    ensures h.response.code == Ok200 ==>
      h.response.body == QuantityUpdated("Quantity updated successfully", update.data[0])
    ensures quantity != Undefined && update.Err? ==>
      h.response == Failure(BadRequest400, "Error updating quantity", ErrorObject(update.error))
    ensures quantity != Undefined && update == Ok([]) ==>
      h.response == Failure(BadRequest400, "Error updating quantity", NullDetail)
    ensures quantity != Undefined && update.Thrown? ==>
      h.response == Internal(ErrorMessage(update.error.message))
  {
    if quantity == Undefined then
      Handled(Failure(BadRequest400, "Quantity is required", Omitted), [])
    else
      var calls := [UpdateQuantity(ProductsTable, quantity, id)];
      match update
      case Thrown(e) => Handled(Internal(ErrorMessage(e.message)), calls)
      case Err(e) => Handled(Failure(BadRequest400, "Error updating quantity", ErrorObject(e)), calls)
      case Ok(rows) =>
        if |rows| == 0 then Handled(Failure(BadRequest400, "Error updating quantity", NullDetail), calls)
        else Handled(Response(Ok200, QuantityUpdated("Quantity updated successfully", rows[0])), calls)
  }
}
