/**
 * The server's request handlers as decisions over the database and the
 * outcome of the Open Food Facts request, which arrive as inputs.
 */
module Api {
  import opened Options
  import opened Models
  import opened Db

  /** The HTTP answer of a handler: 200 with a JSON body, 404 with a message, or 500. */
  datatype Response<T> = Ok200(body: T) | NotFound404(message: string) | ServerError500

  /** A handler's response and the database it leaves behind. */
  datatype Handled<T> = Handled(response: Response<T>, db: Database)

  // ---- the external lookup ----

  datatype OffProduct = OffProduct(productName: Option<string>)

  /** The fields of an Open Food Facts reply the server reads; `status` is an `i32`. */
  datatype OffProductResponse = OffProductResponse(product: Option<OffProduct>, status: int)

  /** How the request to Open Food Facts ended. */
  datatype Fetch = RequestFailed | UndecodableBody | Decoded(response: OffProductResponse)

  const UnknownProductName: string := "Unknown Product"

  /**
   * `lookup_external_product`: a product only for a decoded reply with
   * status 1 and a product object; the name defaults to "Unknown Product"
   * and the price is 0.
   */
  function LookupExternalProduct(barcode: string, fetch: Fetch, nowSecs: int): (r: Option<Product>)
    ensures r.Some? <==> fetch.Decoded? && fetch.response.status == 1 && fetch.response.product.Some?
    ensures r.Some? ==>
      && r.value.barcode == barcode
      && r.value.price == 0.0
      && r.value.lastUpdated == nowSecs
      && r.value.name == fetch.response.product.value.productName.GetOr(UnknownProductName)
  {
    match fetch
    case Decoded(data) =>
      if data.status == 1 && data.product.Some? then
        var name := data.product.value.productName.GetOr(UnknownProductName);
        Some(Product(barcode, name, 0.0, nowSecs))
      else None
    case _ => None
  }

  // ---- handlers ----

  /**
   * `get_product`: the local table first; on a miss the external lookup,
   * whose product is cached and returned even if caching fails.
   */
  function GetProductHandler(
    db: Database, barcode: string, readIo: Io, fetch: Fetch, lookupSecs: int, writeSecs: int, writeIo: Io)
    : (r: Handled<Product>)
    ensures GetProduct(db, barcode, readIo).Err? ==> r == Handled(ServerError500, db)
    ensures GetProduct(db, barcode, readIo).Ok? && GetProduct(db, barcode, readIo).value.Some? ==>
      r == Handled(Ok200(GetProduct(db, barcode, readIo).value.value), db)
    ensures GetProduct(db, barcode, readIo) == Ok(None) ==>
      match LookupExternalProduct(barcode, fetch, lookupSecs)
      case None => r == Handled(NotFound404("Product not found"), db)
      case Some(p) => r.response == Ok200(p) && r.db == UpsertProduct(db, p, writeSecs, writeIo).db
  {
    match GetProduct(db, barcode, readIo)
    case Ok(Some(product)) => Handled(Ok200(product), db)
    case Err(_) => Handled(ServerError500, db)
    case Ok(None) =>
      match LookupExternalProduct(barcode, fetch, lookupSecs)
      case Some(product) =>
        var write := UpsertProduct(db, product, writeSecs, writeIo);
        Handled(Ok200(product), write.db)
      case None => Handled(NotFound404("Product not found"), db)
  }

  /** `add_product`: stores the payload's barcode, name and price; 500 when the write fails. */
  function AddProductHandler(db: Database, payload: ProductPayload, nowSecs: int, writeSecs: int, io: Io)
    : (r: Handled<Product>)
    ensures UpsertProduct(db, Product(payload.barcode, payload.name, payload.price, nowSecs), writeSecs, io).status.Err?
      ==> r == Handled(ServerError500, db)
    ensures r.response.Ok200? <==>
      UpsertProduct(db, Product(payload.barcode, payload.name, payload.price, nowSecs), writeSecs, io).status.Ok?
    ensures r.response.Ok200? ==>
      r.db == UpsertProduct(db, Product(payload.barcode, payload.name, payload.price, nowSecs), writeSecs, io).db
    ensures r.response.Ok200? ==>
      r.response.body == Product(payload.barcode, payload.name, payload.price, nowSecs)
    ensures r.response.Ok200? ==>
      GetProduct(r.db, payload.barcode, Healthy) == Ok(Some(Product(payload.barcode, payload.name, payload.price, writeSecs)))
  {
    var product := Product(payload.barcode, payload.name, payload.price, nowSecs);
    var write := UpsertProduct(db, product, writeSecs, io);
    match write.status
    case Ok(_) => Handled(Ok200(product), write.db)
    case Err(_) => Handled(ServerError500, db)
  }

  /** `get_payment_qr`: 200 with the stored code, 404 when none is set, 500 on a storage error. */
  function GetPaymentQrHandler(db: Database, io: Io): (r: Response<PaymentQrCode>)
    ensures r.Ok200? <==> GetPaymentQr(db, io).Ok? && GetPaymentQr(db, io).value.Some?
    ensures r.Ok200? ==> r.body in db.paymentQr.value
    ensures r.NotFound404? <==> GetPaymentQr(db, io) == Ok(None)
    ensures r.NotFound404? ==> r.message == "QR code not set"
  {
    match GetPaymentQr(db, io)
    case Ok(Some(qr)) => Ok200(qr)
    case Ok(None) => NotFound404("QR code not set")
    case Err(_) => ServerError500
  }

  /** `set_payment_qr`: stores the payload's data under the fixed id, whatever id the payload named. */
  function SetPaymentQrHandler(db: Database, payload: PaymentQrCode, nowSecs: int, writeSecs: int, io: Io)
    : (r: Handled<PaymentQrCode>)
    ensures r.response.Ok200? ==> r.response.body == PaymentQrCode(StoreQrId, payload.data, nowSecs)
    ensures r.response.Ok200? <==> UpsertPaymentQr(db, payload, writeSecs, io).status.Ok?
    ensures r.db == UpsertPaymentQr(db, PaymentQrCode(StoreQrId, payload.data, nowSecs), writeSecs, io).db
    ensures !r.response.Ok200? ==> r.response.ServerError500?
    ensures r.db.products == db.products
  {
    var qr := PaymentQrCode(StoreQrId, payload.data, nowSecs);
    var write := UpsertPaymentQr(db, qr, writeSecs, io);
    match write.status
    case Ok(_) => Handled(Ok200(qr), write.db)
    case Err(_) => Handled(ServerError500, write.db)
  }

  // ---- properties across handlers ----

  /** A local hit answers from the table alone: the external reply and the write path make no difference. */
  lemma LocalHitIgnoresExternal(
    db: Database, barcode: string, readIo: Io,
    f1: Fetch, l1: int, w1: int, io1: Io, f2: Fetch, l2: int, w2: int, io2: Io)
    requires GetProduct(db, barcode, readIo).Ok? && GetProduct(db, barcode, readIo).value.Some?
    ensures GetProductHandler(db, barcode, readIo, f1, l1, w1, io1)
         == GetProductHandler(db, barcode, readIo, f2, l2, w2, io2)
    ensures GetProductHandler(db, barcode, readIo, f1, l1, w1, io1).db == db
  {
  }

  /** A failed local read answers 500 whatever the external reply would have been. */
  lemma LocalErrorIgnoresExternal(
    db: Database, barcode: string, readIo: Io,
    f1: Fetch, l1: int, w1: int, io1: Io, f2: Fetch, l2: int, w2: int, io2: Io)
    requires GetProduct(db, barcode, readIo).Err?
    ensures GetProductHandler(db, barcode, readIo, f1, l1, w1, io1)
         == GetProductHandler(db, barcode, readIo, f2, l2, w2, io2)
    ensures GetProductHandler(db, barcode, readIo, f1, l1, w1, io1).response.ServerError500?
  {
  }

  /** On a local miss the external product is returned whether or not caching it succeeded. */
  lemma ExternalHitAnswersDespiteCacheFailure(
    db: Database, barcode: string, readIo: Io, fetch: Fetch, lookupSecs: int, w1: int, io1: Io, w2: int, io2: Io)
    requires GetProduct(db, barcode, readIo) == Ok(None)
    requires LookupExternalProduct(barcode, fetch, lookupSecs).Some?
    ensures GetProductHandler(db, barcode, readIo, fetch, lookupSecs, w1, io1).response
         == GetProductHandler(db, barcode, readIo, fetch, lookupSecs, w2, io2).response
    ensures GetProductHandler(db, barcode, readIo, fetch, lookupSecs, w1, io1).response.Ok200?
  {
  }

  /** A cached external product is served locally by the next request. */
  lemma ExternalHitIsCached(
    db: Database, barcode: string, fetch: Fetch, lookupSecs: int, writeSecs: int, fetch2: Fetch, l2: int, w2: int, io2: Io)
    requires GetProduct(db, barcode, Healthy) == Ok(None)
    requires LookupExternalProduct(barcode, fetch, lookupSecs).Some?
    ensures var first := GetProductHandler(db, barcode, Healthy, fetch, lookupSecs, writeSecs, Healthy);
            var second := GetProductHandler(first.db, barcode, Healthy, fetch2, l2, w2, io2);
            && second.response.Ok200?
            && second.response.body.name == first.response.body.name
            && second.response.body.price == 0.0
            && second.db == first.db
  {
  }

  /** Adding a product and then asking for it returns the same name and price. */
  lemma AddThenGet(
    db: Database, payload: ProductPayload, nowSecs: int, writeSecs: int, io: Io,
    fetch: Fetch, lookupSecs: int, w2: int, io2: Io)
    requires AddProductHandler(db, payload, nowSecs, writeSecs, io).response.Ok200?
    ensures var added := AddProductHandler(db, payload, nowSecs, writeSecs, io);
            var got := GetProductHandler(added.db, payload.barcode, Healthy, fetch, lookupSecs, w2, io2);
            && got.response.Ok200?
            && got.response.body.name == payload.name
            && got.response.body.price == payload.price
  {
  }

  /** After a successful set, the code is served with the fixed id and the payload's data. */
  lemma SetThenGetPaymentQr(db: Database, payload: PaymentQrCode, nowSecs: int, writeSecs: int, io: Io)
    requires SetPaymentQrHandler(db, payload, nowSecs, writeSecs, io).response.Ok200?
    ensures var stored := SetPaymentQrHandler(db, payload, nowSecs, writeSecs, io);
            && GetPaymentQrHandler(stored.db, Healthy).Ok200?
            && GetPaymentQrHandler(stored.db, Healthy).body.id == StoreQrId
            && GetPaymentQrHandler(stored.db, Healthy).body.data == payload.data
  {
  }

  /** A freshly initialised database has no code yet, so the QR query answers 404. */
  lemma NoQrBeforeSet()
    ensures GetPaymentQrHandler(Init(Fresh, Healthy).db, Healthy) == NotFound404("QR code not set")
  {
  }
}
