# Product catalog controller: a Dafny model

This project models the request handlers of a small product-catalog REST API
(`controllers/product_controller.js`). The handlers create, list with
pagination, fetch, update and delete products, and update a product's
quantity. A hosted backend stores the data: a `products` table and a
`products` storage bucket for images. The handlers hold no state of their
own. Each one reads a few request fields, issues at most three backend calls
in a fixed order, ends early on the first failure, and turns the outcome into
a JSON response with a status code and a `status` flag.

Each handler is therefore a pure function. Its inputs are the request
fields it reads and the reply of each backend call it may await. Its output
is a `Handled` value: the response, plus the trace of the backend calls it
actually issued. A reply is `Ok(data)`, `Err(error)` (the store reports an
`error`), or `Thrown(error)` (the awaited call rejects, so the handler's
`catch` block runs). A reply for a call the handler never reaches is
ignored. The trace is what the "no insert after a failed upload" and "no
update without a quantity" properties are stated over.

Modules:
- `Values` (values.dfy): request values (`JsValue`, where `Undefined` means
  the key is absent), table columns, rows, uploaded files, backend replies and
  backend calls.
- `Http` (http.dfy): status codes, response bodies, the `status` flag and the
  `WellFormed` shape every response keeps.
- `Pagination` (pagination.dfy): the page number, the inclusive row window
  and the page count of the listing.
- `ObjectNames` (object_names.dfy): the `<timestamp>-<originalname>` name of
  an uploaded image, with its inverse.
- `ProductController` (product_controller.dfy): the six handlers.

The handlers have no loops. addProduct's reassigned local `image_url`
becomes the row passed to the insert step. Writing the response through the
framework's `res.status(...).json(...)` becomes the returned `Response`
value.

Two points where the model is more exact than a plain reading of the
handlers:
- `updateProductQuantity` rejects only a missing `quantity` (`=== undefined`).
  `quantity: 0` and `quantity: null` both pass the check and reach the store.
- The `error` member differs by handler. It can be the whole store error
  object, only its `message` (addProduct's two 400s and 500,
  updateProductQuantity's 500), `null` (a lookup with no row and no error;
  a quantity update that touched no row), or absent ("Quantity is required").
  `Http.Detail` keeps these four cases apart.

Upload object names are injective in the pair (timestamp, original name).
So two uploads with the same original file name in the same millisecond get
the same object name (`ObjectNames.ObjectNameInjective`). Nothing in the
controller makes a name unique per request beyond that.

`updateProductQuantity` is exported by the controller, but
`routes/product_routes.js:2-8,13-17` never registers it on a route.

## Model

| member | source | states |
|---|---|---|
| `Pagination.PageNumber` | controllers/product_controller.js:66 | the page is never 0. It is 1 exactly when the query is absent or not numeric (NaN), or is 0 or 1. Any other integer, negative ones included, is used unchanged |
| `Pagination.WindowFrom` | controllers/product_controller.js:68 | `from` is a multiple of 9, namely 9 times `page - 1` |
| `Pagination.WindowTo` | controllers/product_controller.js:69 | `to` closes a 9-index inclusive window that starts at `from`, and is one less than a multiple of 9 |
| `Pagination.WindowShape` | controllers/product_controller.js:67-69 | the requested inclusive window `[from, to]` starts at `(page-1)*9` and holds exactly 9 indices. The next page's window starts right after it: `to(p) + 1 == from(p+1)` |
| `Pagination.IndexInOneWindow` | controllers/product_controller.js:67-69 | every row index `i` lies in the window of exactly one page, namely `i / 9 + 1` |
| `Pagination.TotalPages` | controllers/product_controller.js:89 | `totalPages` is the least `n` with `n * 9 >= count` (ceiling division) |
| `Pagination.TotalPagesIsNonEmptyWindows` | controllers/product_controller.js:67-89 | for every page `p`: `p <= totalPages` exactly when the window of `p` starts before `count`. Pages of 0 or below always lie within range |
| `Pagination.RowsOnPage` | controllers/product_controller.js:67-69 | the number of the `count` matching rows that fall in a page's window is at most 9. It is positive exactly when the window overlaps `[0, count)` |
| `Pagination.NonPositivePageSelectsNothing` | controllers/product_controller.js:66-69 | a page of 0 or below, which the page number keeps when it is negative, asks for a window that ends below index 0 and so holds none of the matching rows |
| `Pagination.RowsThroughPrefix` | controllers/product_controller.js:67-69 | pages 1..k together cover the first `min(9k, count)` rows |
| `Pagination.PagesCoverAllRows` | controllers/product_controller.js:67-89 | pages 1..totalPages together return every matching row, and every later page returns none |
| `Pagination.PageExamples` | controllers/product_controller.js:89 | 20 rows make 3 pages, the third holding 2 rows. 0 rows make 0 pages. 9 rows make 1 page and 10 rows make 2 |
| `ObjectNames.DecimalString` | controllers/product_controller.js:12 | the timestamp is written as at least one decimal digit, with no leading zero unless it is 0 |
| `ObjectNames.DecimalRoundTrip` | controllers/product_controller.js:12 | reading the decimal form of the timestamp back gives the timestamp |
| `ObjectNames.ObjectName` | controllers/product_controller.js:12 | the object name starts with a digit and ends with `"-" + originalname` |
| `ObjectNames.ObjectNameRoundTrip` | controllers/product_controller.js:12 | splitting an object name at its first dash gives back the timestamp and the original file name |
| `ObjectNames.ObjectNameInjective` | controllers/product_controller.js:12 | two object names are equal exactly when their timestamps and original file names are equal |
| `ProductController.First` | controllers/product_controller.js:51 | `data[0]` is present exactly when the rows are non-empty, and is then the first row |
| `ProductController.InsertStep` | controllers/product_controller.js:35-52 | the insert is appended to the calls already issued. A thrown insert gives 500 with the exception's message. A reported error gives 400 "Error in creating product" with the error's message. Success gives 201 "Product created successfully" with the first inserted row, if any |
| `ProductController.AddProduct` | controllers/product_controller.js:4-61 | without a file: exactly one insert, whose row has `image_url = null` whatever the body holds. With a file: first an upload to bucket `products` under the timestamped name with the file's content type. An insert is issued exactly when there is no file or the upload succeeded. A failed upload ends the request with 400 "Image upload failed" (or 500 if it threw). After a successful upload, the public URL of that same name is fetched and becomes the row's `image_url`. 201 exactly when the insert runs and succeeds. An insert error gives 400, an exception 500 |
| `ProductController.ListProducts` | controllers/product_controller.js:64-100 | one paged query with filter `quantity > 0` over the window of `PageNumber(query)`. 200 exactly when the query succeeds, reporting that page, the exact count and `TotalPages(count)`. A store error gives 400 "Error fetching products", an exception 500 |
| `ProductController.ListDefaultsToFirstPage` | controllers/product_controller.js:66 | no `page`, `page=0` and `page=1` lead to the same response and the same query |
| `ProductController.GetProductById` | controllers/product_controller.js:102-132 | one lookup by id. 404 "Product not found" exactly when the store reports an error or returns no row. 200 exactly when a row is returned, and with that row. An exception gives 500 |
| `ProductController.UpdateProduct` | controllers/product_controller.js:134-166 | one update of all six fields from the body. 200 exactly when the store reports no error, even with no row updated. A store error gives 400, an exception 500 |
| `ProductController.DeleteProduct` | controllers/product_controller.js:168-194 | one delete by id. 200 exactly when the store reports no error, whether or not the row existed. A store error gives 400, an exception 500 |
| `ProductController.UpdateProductQuantity` | controllers/product_controller.js:196-235 | no call is issued exactly when `quantity` is absent, and the reply is then 400 "Quantity is required". Any present value, 0 and null included, issues exactly one quantity update. 200 exactly when that update has no error and touched at least one row, and the reply carries the first row. An error or zero rows gives 400 "Error updating quantity", an exception 500 with its message |
| `Http.Internal` | controllers/product_controller.js:53-59 | the catch-block response: 500, `status: false`, message "Internal server error" and the given error detail |
| `Http.Failure` | controllers/product_controller.js:21-25 | a 400 or 404 response with `status: false` and exactly the given message and error detail. This shape is also used at lines 41-45, 78-82, 113-117, 146-150, 175-179, 202-205 and 215-219 |

Every handler also ensures `Http.WellFormed` of its response: the code is
one of 200, 201, 400, 404, 500, and `status` is true exactly for 200 and 201.

## Left out

- The backend itself (insert, select, range, gt, eq, single, update, delete,
  upload, getPublicUrl) is a foreign client library. The model records each
  call with its arguments and takes its reply as an input. It does not model
  what the table or the bucket contain.
- ListProducts: the model does not show that a listing returns only rows with
  `quantity > 0`, or at most 9 rows. Both are up to the store. The model
  records the `quantity > 0` filter and the window in the call, and
  `RowsOnPage` gives the row count a window can hold.
- UpdateProduct: the stored state is not modelled, so "the same update twice
  leaves the same state" is not stated. Only the call issued is.
- An image that was uploaded before a failed insert stays in the bucket
  (orphaned). This depends on the bucket's state, which is not modelled.
- `Date.now()` is the `now` parameter of AddProduct. `getPublicUrl`'s result
  is the `publicUrl` parameter. The model assumes that synchronous call never
  throws.
- `parseInt` is not modelled: the query page arrives as `Option<int>`
  (`None` for NaN). The model does not cover the float result of
  `Math.ceil(count / 9)`. It uses the equivalent integer ceiling division on
  a non-negative count.
- Pagination.PageNumber: the page is an exact unbounded integer in the model. In JavaScript, a digit string of more than about 309 digits parses to `Infinity`, which is truthy. `page`, `from` and `to` then all become `Infinity`, and the 200 body sends `page` as `null`. The model has no ±Infinity.
- Pagination.WindowFrom: `from` is exact in the model. In JavaScript `(page - 1) * 9` is an IEEE double and rounds once it passes 2^53.
- Pagination.WindowTo: `to` is exact in the model. In JavaScript `from + 8` is an IEEE double and rounds once it passes 2^53.
- Exceptions outside the awaited calls are not modelled. An example is
  destructuring a missing `req.body`. These would also end in the 500
  branch.
- JSON serialisation, `console.error` logging, Express routing, the upload
  middleware, and concurrency between requests are not modelled.
- `routes/product_routes.js` is not modelled. It only registers routes, and
  it registers none for `updateProductQuantity`.
