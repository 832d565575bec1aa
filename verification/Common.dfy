/** Vocabulary shared by the trading modules. */
module Common {

  datatype Option<+T> = None | Some(value: T)

  datatype Side = BUY | SELL

  /** The lifecycle of one order row: the exchange's own states plus PENDING and FAILED. */
  datatype OrderStatus =
    | PENDING
    | NEW
    | PARTIALLY_FILLED
    | FILLED
    | CANCELED
    | PENDING_CANCEL
    | REJECTED
    | EXPIRED
    | FAILED

  predicate IsTerminal(status: OrderStatus) {
    status in {FILLED, CANCELED, REJECTED, EXPIRED, FAILED}
  }

  predicate IsCancelable(status: OrderStatus) {
    status in {NEW, PARTIALLY_FILLED}
  }

  /** What a call into foreign code comes back with: a value, the exchange
      client's own error, or any other exception. */
  datatype Answer<+T> = Ok(value: T) | BinanceFailure | OtherFailure
}
