/** The catalog endpoint as the pages see it: the requests they send and the
 *  outcome each request reports. Whether a reply is ok is an input of the
 *  model; a rejected fetch and a non-ok status reach the handler's `catch`
 *  and are `NotOk` here. For the list fetch, create and update an unparsable
 *  body does too; delete never reads the body, so for delete any ok status is
 *  `Ok`.
 */
module Remote {
  import opened Catalog

  /** The result of one request: ok with its parsed payload, or not ok. */
  datatype Outcome<+T> = Ok(payload: T) | NotOk

  /** The requests the admin page sends. */
  datatype Request =
    | CreateProduct(body: ProductForm)              // POST /products
    | ReplaceProduct(id: int, body: ProductForm)    // PUT /products/{id}
    | DeleteProduct(id: int)                        // DELETE /products/{id}
}
