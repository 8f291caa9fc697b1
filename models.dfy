/**
 * The persisted records of the payment service (the Go structs in models.go).
 * `uuid.UUID` and `time.Time` are abstract values; `float64` amounts are `real`.
 */
module Models {
  import opened Wrappers

  /** The 128-bit value of a UUID. */
  type UuidBits = n: nat | n < 0x1_0000_0000_0000_0000_0000_0000_0000_0000

  /** A UUID, as its 128-bit value. */
  datatype Uuid = Uuid(bits: UuidBits)

  /** The zero `uuid.UUID` (all bits clear), which a Go struct holds before insertion. */
  const NilUuid: Uuid := Uuid(0)

  /** An instant, in nanoseconds since January 1, year 1, UTC (Go's zero `time.Time`). */
  datatype Time = Instant(nanos: int)

  /** The zero `time.Time`, which a Go struct holds before insertion. */
  const ZeroTime: Time := Instant(0)

  /** A row of the `payments` table. */
  datatype Payment = Payment(
    id: Uuid,
    orderID: string,
    cfOrderID: string,
    amount: real,
    currency: string,
    status: string,
    paymentMethod: Option<string>,
    customerID: string,
    customerName: string,
    customerEmail: string,
    customerPhone: string,
    description: Option<string>,
    paymentURL: Option<string>,
    cfPaymentID: Option<string>,
    paymentTime: Option<Time>,
    createdAt: Time,
    updatedAt: Time)

  /** A row of the `refunds` table. */
  datatype Refund = Refund(
    id: Uuid,
    refundID: string,
    cfRefundID: string,
    orderID: string,
    cfOrderID: string,
    amount: real,
    status: string,
    reason: Option<string>,
    processedAt: Option<Time>,
    createdAt: Time,
    updatedAt: Time)

  /** A row of the `split_settlements` table; `splitType` is "AMOUNT", "PERCENTAGE" or "". */
  datatype SplitSettlement = SplitSettlement(
    id: Uuid,
    orderID: string,
    cfOrderID: string,
    vendorID: string,
    amount: real,
    percentage: Option<real>,
    splitType: string,
    status: string,
    createdAt: Time,
    updatedAt: Time)

  /** A row of the `webhooks` audit table. */
  datatype Webhook = Webhook(
    id: Uuid,
    eventType: string,
    orderID: Option<string>,
    payload: string,
    status: string,
    createdAt: Time)

  /** One vendor share of a split-settlement request. */
  datatype SplitConfig = SplitConfig(
    vendorID: string,
    amount: Option<real>,
    percentage: Option<real>)
}
