/**
 * The server's SQLite store as two tables: products keyed by barcode, and
 * the payment-QR table that is kept to a single row.
 */
module Db {
  import opened Options
  import opened Models

  /** A products row; its barcode is the key it is stored under. */
  datatype ProductRow = ProductRow(name: string, price: Price, lastUpdated: int)

  /**
   * The database file: a table is `None` until `init` creates it. The QR
   * table is kept in rowid order, which is the order an unordered scan
   * returns it in.
   */
  datatype Database = Database(
    products: Option<map<string, ProductRow>>,
    paymentQr: Option<seq<PaymentQrCode>>)

  /** A database that has never been initialised, such as a fresh `:memory:` one. */
  const Fresh: Database := Database(None, None)

  const StoreQrId: string := "store_qr"

  /**
   * Whether the storage engine fails a statement for reasons outside the
   * model (I/O, a locked file, a full disk): `FailsAt(k)` fails the k-th
   * statement of a call, counting from 0; later statements never run.
   */
  datatype Io = Healthy | FailsAt(statement: nat)

  predicate Fails(io: Io, k: nat) {
    io.FailsAt? && io.statement == k
  }

  datatype DbError = NoSuchTable(table: string) | EngineError

  /** `rusqlite::Result<T>`. */
  datatype DbResult<T> = Ok(value: T) | Err(error: DbError)

  /** A write: the database afterwards, whether or not the call failed part-way. */
  datatype Written = Written(db: Database, status: DbResult<()>)

  /** `init`: creates each table that does not exist yet, products first. */
  function Init(db: Database, io: Io): (r: Written)
    ensures r.status.Ok? <==> !Fails(io, 0) && !Fails(io, 1)
    ensures db.products.Some? ==> r.db.products == db.products
    ensures db.paymentQr.Some? ==> r.db.paymentQr == db.paymentQr
    ensures r.status.Ok? ==> r.db.products.Some? && r.db.paymentQr.Some?
    ensures r.status.Ok? && db.products.None? ==> r.db.products == Some(map[])
    ensures r.status.Ok? && db.paymentQr.None? ==> r.db.paymentQr == Some([])
  {
    if Fails(io, 0) then Written(db, Err(EngineError))
    else
      var db1 := if db.products.None? then db.(products := Some(map[])) else db;
      if Fails(io, 1) then Written(db1, Err(EngineError))
      else
        var db2 := if db1.paymentQr.None? then db1.(paymentQr := Some([])) else db1;
        Written(db2, Ok(()))
  }

  /** `get_product`: the row stored under `barcode`, if any. */
  function GetProduct(db: Database, barcode: string, io: Io): (r: DbResult<Option<Product>>)
    ensures r.Err? <==> Fails(io, 0) || db.products.None?
    ensures r == Ok(None) <==> !Fails(io, 0) && db.products.Some? && barcode !in db.products.value
    ensures r.Ok? && r.value.Some? ==>
      && barcode in db.products.value
      && r.value.value.barcode == barcode
      && r.value.value.name == db.products.value[barcode].name
      && r.value.value.price == db.products.value[barcode].price
      && r.value.value.lastUpdated == db.products.value[barcode].lastUpdated
  {
    if Fails(io, 0) then Err(EngineError)
    else if db.products.None? then Err(NoSuchTable("products"))
    else if barcode in db.products.value then
      var row := db.products.value[barcode];
      Ok(Some(Product(barcode, row.name, row.price, row.lastUpdated)))
    else Ok(None)
  }

  /**
   * `upsert_product`: `INSERT OR REPLACE` keyed by barcode, stamped with
   * the time of the write rather than the product's own timestamp.
   */
  function UpsertProduct(db: Database, p: Product, nowSecs: int, io: Io): (r: Written)
    ensures r.status.Ok? <==> !Fails(io, 0) && db.products.Some?
    ensures r.status.Err? ==> r.db == db
    ensures r.db.paymentQr == db.paymentQr
    ensures r.status.Ok? ==>
      GetProduct(r.db, p.barcode, Healthy) == Ok(Some(Product(p.barcode, p.name, p.price, nowSecs)))
    ensures r.status.Ok? ==>
      forall b :: b != p.barcode ==> GetProduct(r.db, b, Healthy) == GetProduct(db, b, Healthy)
  {
    if Fails(io, 0) then Written(db, Err(EngineError))
    else if db.products.None? then Written(db, Err(NoSuchTable("products")))
    else
      var table := db.products.value[p.barcode := ProductRow(p.name, p.price, nowSecs)];
      Written(db.(products := Some(table)), Ok(()))
  }

  /** `get_payment_qr`: the first row of the QR table, if any (`LIMIT 1`). */
  function GetPaymentQr(db: Database, io: Io): (r: DbResult<Option<PaymentQrCode>>)
    ensures r.Err? <==> Fails(io, 0) || db.paymentQr.None?
    ensures r == Ok(None) <==> !Fails(io, 0) && db.paymentQr == Some([])
    ensures r.Ok? && r.value.Some? ==> r.value.value in db.paymentQr.value
  {
    if Fails(io, 0) then Err(EngineError)
    else if db.paymentQr.None? then Err(NoSuchTable("payment_qr"))
    else if |db.paymentQr.value| == 0 then Ok(None)
    else Ok(Some(db.paymentQr.value[0]))
  }

  /**
   * `upsert_payment_qr`: deletes every row, then inserts one with the
   * fixed id and the code's data, stamped with the time of the write. The
   * two statements are not one transaction: a failed insert leaves the
   * table empty.
   */
  function UpsertPaymentQr(db: Database, qr: PaymentQrCode, nowSecs: int, io: Io): (r: Written)
    ensures r.status.Ok? <==> !Fails(io, 0) && !Fails(io, 1) && db.paymentQr.Some?
    ensures r.db.products == db.products
    ensures r.status.Ok? ==> r.db.paymentQr == Some([PaymentQrCode(StoreQrId, qr.data, nowSecs)])
    ensures r.status.Ok? ==> GetPaymentQr(r.db, Healthy) == Ok(Some(PaymentQrCode(StoreQrId, qr.data, nowSecs)))
    ensures Fails(io, 1) && db.paymentQr.Some? ==> r.db.paymentQr == Some([])
    ensures Fails(io, 0) || db.paymentQr.None? ==> r.db == db
  {
    if Fails(io, 0) then Written(db, Err(EngineError))
    else if db.paymentQr.None? then Written(db, Err(NoSuchTable("payment_qr")))
    else
      var emptied := db.(paymentQr := Some([]));
      if Fails(io, 1) then Written(emptied, Err(EngineError))
      else Written(emptied.(paymentQr := Some([PaymentQrCode(StoreQrId, qr.data, nowSecs)])), Ok(()))
  }

  /** `CREATE TABLE IF NOT EXISTS`: a second `init` changes nothing. */
  lemma InitIsIdempotent(db: Database)
    ensures Init(Init(db, Healthy).db, Healthy) == Init(db, Healthy)
  {
  }

  /** The latest upsert wins: a second write to the same barcode hides the first. */
  lemma LastUpsertWins(db: Database, p: Product, q: Product, t1: int, t2: int)
    requires db.products.Some?
    requires p.barcode == q.barcode
    ensures var once := UpsertProduct(db, p, t1, Healthy).db;
            GetProduct(UpsertProduct(once, q, t2, Healthy).db, p.barcode, Healthy)
              == Ok(Some(Product(q.barcode, q.name, q.price, t2)))
  {
  }
}
