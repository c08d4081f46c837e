/** The server's record shapes. */
module Models {

  /**
   * A price is an `f64` in the server; it is only carried and compared,
   * never computed with, so a real stands in for it.
   */
  type Price = real

  datatype Product = Product(barcode: string, name: string, price: Price, lastUpdated: int)

  datatype PaymentQrCode = PaymentQrCode(id: string, data: string, lastUpdated: int)

  datatype ProductPayload = ProductPayload(barcode: string, name: string, price: Price)
}
