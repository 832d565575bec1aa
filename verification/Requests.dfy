/** What a keyed request stores: its payload and, once finalized, its response. */
module Requests {
  import opened Common
  import opened Idempotency
  import opened BotMachine
  import SimulationLedger

  datatype Payload =
    | OrderPayload(symbol: string, side: string, orderType: string, quantity: real, price: Option<real>)
    | ClosePayload(symbol: string, quantity: real)
    | CancelPayload(order: KeyId)
    | BotPayload(bot: nat)
    | UpdatePayload(bot: nat, target: Option<real>)
    | OpenPayload(symbol: string, size: real)
    | SimulationPayload(bot: nat, side: string, quantity: real)

  // Python's OrderSide(...) and OrderType(...) accept exactly these.
  predicate NamesSide(text: string) { text in {"BUY", "SELL"} }

  predicate NamesType(text: string) { text in {"MARKET", "LIMIT"} }

  function SideNamed(text: string): Side { if text == "BUY" then BUY else SELL }

  datatype BotReply = Declined | Failed | Deleted | Now(status: Status)

  /** The stored response of a request. */
  datatype Receipt =
    | OrderReceipt(status: OrderStatus)
    | BotReceipt(bot: Option<Bot>, reply: BotReply)

  type KeyRow = Row<Payload, Receipt>

  /** The client key from which an inner key was derived. */
  function OuterOf(id: KeyId): KeyId
    requires id.key.Inner?
  {
    KeyId(id.user, TransitionBot(id.key.op, id.key.bot), Client(id.key.text))
  }

  /** The key under which a bot's transition places its order. */
  function InnerKey(user: nat, op: Op, bot: nat, text: string, mode: Mode): KeyId {
    KeyId(user, if mode == LIVE then Orders else SimulationOrders(bot), Inner(op, bot, text))
  }

  /** What that order request looks like to the service that receives it. */
  function InnerPayload(op: Op, id: nat, bot: Bot): Payload {
    var side := SimulationLedger.SideText(SideOf(op));
    if bot.mode == LIVE then OrderPayload(bot.symbol, side, "MARKET", QuantityOf(op, bot), None)
    else SimulationPayload(id, side, QuantityOf(op, bot))
  }

  /** How a transition answers its own client. */
  function ReplyOf(bot: Bot, outcome: Outcome): BotReply {
    match outcome
    case Disabled => Declined
    case Rejected => Declined
    case Filled => Now(bot.status)
    case _ => Failed
  }

  /** How a transition reads the final status of the order it placed. */
  function OutcomeOfStatus(status: OrderStatus): Outcome {
    if status == OrderStatus.FILLED then Filled else if status == OrderStatus.REJECTED then Rejected else Unresolved
  }
}
