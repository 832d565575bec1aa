/** Order rows, and how the exchange's replies are written into them. */
module Reconciliation {
  import opened Common
  import opened Idempotency

  /** A number as the exchange sends it. */
  datatype Number = Numeric(value: real) | Garbage

  /** A curated reply; any field may be missing. */
  datatype ExchangeOrder = ExchangeOrder(
    status: Option<string>, orderId: Option<string>, executedQty: Option<Number>, quoteQty: Option<Number>)

  /** The part of an order row that the exchange has the last word on. */
  datatype OrderRow = OrderRow(
    status: OrderStatus, exchangeId: Option<string>, executed: real, average: Option<real>, terminalAt: Option<int>)

  const NEW_ROW := OrderRow(PENDING, None, 0.0, None, None)

  class Order {
    const clientOrderId: KeyId
    const side: Side
    const quantity: real
    var status: OrderStatus
    var exchangeId: Option<string>
    var executed: real
    var average: Option<real>
    var submittedAt: Option<int>
    var terminalAt: Option<int>
    var bot: Option<nat>

    constructor (clientOrderId: KeyId, side: Side, quantity: real)
      ensures this.clientOrderId == clientOrderId && this.side == side && this.quantity == quantity
      ensures Row() == NEW_ROW && submittedAt == None && bot == None
    {
      this.clientOrderId := clientOrderId;
      this.side := side;
      this.quantity := quantity;
      status := PENDING;
      exchangeId := None;
      executed := 0.0;
      average := None;
      submittedAt := None;
      terminalAt := None;
      bot := None;
    }

    function Row(): OrderRow
      reads this
    {
      OrderRow(status, exchangeId, executed, average, terminalAt)
    }
  }

  function MapBinanceStatus(text: string): Option<OrderStatus> {
    if text == "NEW" then Some(NEW)
    else if text == "PARTIALLY_FILLED" then Some(PARTIALLY_FILLED)
    else if text == "FILLED" then Some(FILLED)
    else if text == "CANCELED" then Some(CANCELED)
    else if text == "PENDING_CANCEL" then Some(PENDING_CANCEL)
    else if text == "REJECTED" then Some(OrderStatus.REJECTED)
    else if text == "EXPIRED" || text == "EXPIRED_IN_MATCH" then Some(EXPIRED)
    else None
  }

  predicate KnownStatus(p: ExchangeOrder) { p.status.Some? ==> MapBinanceStatus(p.status.value).Some? }

  predicate NumericQuantity(p: ExchangeOrder) { p.executedQty.Some? ==> p.executedQty.value.Numeric? }

  /** Something has filled, so an average price is derived. */
  predicate HasAverage(p: ExchangeOrder) {
    && p.quoteQty.Some? && p.executedQty.Some?
    && p.executedQty.value.Numeric? && p.executedQty.value.value != 0.0
  }

  predicate WellFormed(p: ExchangeOrder) {
    KnownStatus(p) && NumericQuantity(p) && (HasAverage(p) ==> p.quoteQty.value.Numeric?)
  }

  /** What a well-formed reply makes of a row: every field it carries, and no other. */
  function Updated(row: OrderRow, p: ExchangeOrder): OrderRow
    requires WellFormed(p)
  {
    OrderRow(
      if p.status.Some? then MapBinanceStatus(p.status.value).value else row.status,
      if p.orderId.Some? then p.orderId else row.exchangeId,
      if p.executedQty.Some? then p.executedQty.value.value else row.executed,
      if HasAverage(p) then Some(p.quoteQty.value.value / p.executedQty.value.value) else row.average,
      row.terminalAt)
  }

  /** What a malformed reply has already written when the exception is raised. */
  function Torn(row: OrderRow, p: ExchangeOrder): OrderRow
    requires !WellFormed(p)
  {
    if !KnownStatus(p) then row
    else
      var prefix := row.(status := if p.status.Some? then MapBinanceStatus(p.status.value).value else row.status,
                         exchangeId := if p.orderId.Some? then p.orderId else row.exchangeId);
      if NumericQuantity(p) then prefix.(executed := p.executedQty.value.value) else prefix
  }

  // ---- What a row has to look like after a reply, field by field ---------------------------------

  /** The words by which the exchange names a status; PENDING and FAILED exist only here. */
  ghost function TextsOf(status: OrderStatus): set<string> {
    match status
    case PENDING => {}
    case NEW => {"NEW"}
    case PARTIALLY_FILLED => {"PARTIALLY_FILLED"}
    case FILLED => {"FILLED"}
    case CANCELED => {"CANCELED"}
    case PENDING_CANCEL => {"PENDING_CANCEL"}
    case REJECTED => {"REJECTED"}
    case EXPIRED => {"EXPIRED", "EXPIRED_IN_MATCH"}
    case FAILED => {}
  }

  ghost predicate IsWord(text: string) {
    exists status :: text in TextsOf(status)
  }

  /** Status and exchange id are the reply's where it has them, else as before. */
  ghost predicate ReflectsHead(after: OrderRow, p: ExchangeOrder, before: OrderRow) {
    && (if p.status.Some? then p.status.value in TextsOf(after.status) else after.status == before.status)
    && after.exchangeId == (if p.orderId.Some? then p.orderId else before.exchangeId)
  }

  /** The row says what the reply says and is otherwise as before; times are no part of a reply. The
      average is what multiplied by the executed quantity gives the quote quantity. */
  ghost predicate Reflects(after: OrderRow, p: ExchangeOrder, before: OrderRow) {
    && ReflectsHead(after, p, before)
    && (if p.executedQty.Some? then p.executedQty.value == Numeric(after.executed)
        else after.executed == before.executed)
    && (if p.executedQty.Some? && p.quoteQty.Some? && after.executed != 0.0 then
          after.average.Some? && p.quoteQty.value == Numeric(after.average.value * after.executed)
        else after.average == before.average)
  }

  // The states an order can still leave.
  ghost const OPEN: set<OrderStatus> := {PENDING, NEW, PARTIALLY_FILLED, PENDING_CANCEL}

  lemma OpenIsNotTerminal(status: OrderStatus)
    ensures status in OPEN <==> !IsTerminal(status)
  {
    match status
    case PENDING =>
    case _ =>
  }

  /** ... and carries this time if that is the end of the order. */
  ghost predicate ReflectsAndStamps(after: OrderRow, p: ExchangeOrder, before: OrderRow, now: int) {
    Reflects(after, p, before) && after.terminalAt == if after.status in OPEN then before.terminalAt else Some(now)
  }

  /** A reply is well-formed exactly if some row can say what it says, and then only one can. */
  lemma WellFormedExactlyIfReflected(row: OrderRow, p: ExchangeOrder)
    ensures WellFormed(p) <==> exists after :: Reflects(after, p, row)
    ensures WellFormed(p) ==>
              forall after ::
                Reflects(after, p, row) && after.terminalAt == row.terminalAt <==> after == Updated(row, p)
    ensures KnownStatus(p) <==> (p.status.Some? ==> IsWord(p.status.value))
  {
    WordsAreKnown(p.status);
    if WellFormed(p) {
      UpdatedReflects(row, p);
      forall after | Reflects(after, p, row) && after.terminalAt == row.terminalAt
        ensures after == Updated(row, p)
      {
        ReflectionIsUnique(row, p, after);
      }
    } else {
      forall after ensures !Reflects(after, p, row) {
        WordsAreOneToOne(p.status, after.status);
      }
    }
  }

  lemma WordsAreOneToOne(text: Option<string>, status: OrderStatus)
    ensures text.Some? ==> (text.value in TextsOf(status) <==> MapBinanceStatus(text.value) == Some(status))
  {
  }

  lemma WordsAreKnown(text: Option<string>)
    ensures text.Some? ==> (MapBinanceStatus(text.value).Some? <==> IsWord(text.value))
  {
    if text.Some? && MapBinanceStatus(text.value).Some? {
      WordsAreOneToOne(text, MapBinanceStatus(text.value).value);
    } else if text.Some? && IsWord(text.value) {
      var status :| text.value in TextsOf(status);
      WordsAreOneToOne(text, status);
    }
  }

  lemma UpdatedReflects(row: OrderRow, p: ExchangeOrder)
    requires WellFormed(p)
    ensures Reflects(Updated(row, p), p, row) && Updated(row, p).terminalAt == row.terminalAt
  {
    WordsAreOneToOne(p.status, Updated(row, p).status);
    if HasAverage(p) {
      var quote, executed := p.quoteQty.value.value, p.executedQty.value.value;
      assert quote / executed * executed == quote;
    }
  }

  lemma ReflectionIsUnique(row: OrderRow, p: ExchangeOrder, after: OrderRow)
    requires WellFormed(p) && Reflects(after, p, row) && after.terminalAt == row.terminalAt
    ensures after == Updated(row, p)
  {
    WordsAreOneToOne(p.status, after.status);
    if HasAverage(p) {
      var quote, executed, average := p.quoteQty.value.value, p.executedQty.value.value, after.average.value;
      QuotientIsUnique(quote, executed, average);
    }
  }

  lemma QuotientIsUnique(product: real, factor: real, q: real)
    requires factor != 0.0 && q * factor == product
    ensures q == product / factor
  {
    assert (q - product / factor) * factor == 0.0;
  }

  /** What an unreadable reply leaves behind: nothing if its status is no word of the exchange; else
      its head and a readable quantity are in, and the average and the time are as before. */
  ghost predicate ReflectsInPart(after: OrderRow, p: ExchangeOrder, before: OrderRow) {
    if p.status.Some? && !IsWord(p.status.value) then after == before
    else
      && ReflectsHead(after, p, before)
      && after.executed == (if p.executedQty.Some? && p.executedQty.value.Numeric? then p.executedQty.value.value
                            else before.executed)
      && after.average == before.average && after.terminalAt == before.terminalAt
  }

  lemma TornReflectsInPart(row: OrderRow, p: ExchangeOrder)
    requires !WellFormed(p)
    ensures ReflectsInPart(Torn(row, p), p, row)
  {
    WordsAreKnown(p.status);
    WordsAreOneToOne(p.status, Torn(row, p).status);
  }

  /** None stands for an exception. An unknown status raises before anything is written. */
  method ReconcileFromBinancePayload(order: Order, p: ExchangeOrder) returns (changed: Option<bool>)
    modifies order
    ensures order.submittedAt == old(order.submittedAt) && order.bot == old(order.bot)
    ensures changed.Some? <==> WellFormed(p)
    ensures WellFormed(p) ==> order.Row() == Updated(old(order.Row()), p)
    ensures WellFormed(p) ==> changed.value == (order.Row() != old(order.Row()))
    ensures !WellFormed(p) ==> order.Row() == Torn(old(order.Row()), p)
    ensures changed.Some? ==> Reflects(order.Row(), p, old(order.Row())) && order.terminalAt == old(order.terminalAt)
    ensures changed.None? ==> ReflectsInPart(order.Row(), p, old(order.Row()))
  {
    if WellFormed(p) {
      UpdatedReflects(order.Row(), p);
    } else {
      TornReflectsInPart(order.Row(), p);
    }
    var any := false;
    if p.status.Some? {
      var newStatus := MapBinanceStatus(p.status.value);
      if newStatus.None? {
        return None;
      }
      if order.status != newStatus.value {
        order.status := newStatus.value;
        any := true;
      }
    }
    if p.orderId.Some? && order.exchangeId != p.orderId {
      order.exchangeId := p.orderId;
      any := true;
    }
    if p.executedQty.Some? {
      if p.executedQty.value.Garbage? {
        return None;
      }
      if order.executed != p.executedQty.value.value {
        order.executed := p.executedQty.value.value;
        any := true;
      }
    }
    if p.quoteQty.Some? && p.executedQty.Some? && p.executedQty.value.value != 0.0 {
      if p.quoteQty.value.Garbage? {
        return None;
      }
      var averageFillPrice := p.quoteQty.value.value / p.executedQty.value.value;
      if order.average != Some(averageFillPrice) {
        order.average := Some(averageFillPrice);
        any := true;
      }
    }
    return Some(any);
  }

  /** A reply overwrites every field it shares with an earlier one; applied twice, it alters nothing. */
  lemma LastReplyWins(row: OrderRow, p: ExchangeOrder, q: ExchangeOrder)
    requires WellFormed(p) && WellFormed(q)
    requires (q.status.Some? ==> p.status.Some?) && (q.orderId.Some? ==> p.orderId.Some?)
    requires (q.executedQty.Some? ==> p.executedQty.Some?) && (HasAverage(q) ==> HasAverage(p))
    ensures Updated(Updated(row, q), p) == Updated(row, p)
    ensures Updated(Updated(row, p), p) == Updated(row, p)
  {
  }

  // ---- One row over its whole life, one operation at a time -------------------------------------

  /** Every operation that writes an order row. */
  datatype Touch =
    | Refuse(now: int)                               // a gate rejected it
    | GiveUp(now: int)                               // submission failed for good
    | Acknowledge(reply: ExchangeOrder, now: int)    // the reply to a submission, or its confirmation
    | Cancel(answer: Answer<ExchangeOrder>, now: int)
    | BotRead(answer: Answer<ExchangeOrder>, now: int)
    | Read(answer: Answer<ExchangeOrder>, now: int)

  predicate Reaches(row: OrderRow, t: Touch) {
    match t
    case Refuse(_) => row.status == PENDING
    case GiveUp(_) => row.status == PENDING
    case Acknowledge(_, _) => row.status == PENDING
    case Cancel(answer, _) => IsCancelable(row.status) && answer.Ok?
    case BotRead(answer, _) => row.status in {NEW, PARTIALLY_FILLED} && answer.Ok?
    case Read(answer, _) => !IsTerminal(row.status) && answer.Ok?
  }

  function ReplyIn(t: Touch): Option<ExchangeOrder> {
    match t
    case Acknowledge(reply, _) => Some(reply)
    case Cancel(Ok(reply), _) => Some(reply)
    case BotRead(Ok(reply), _) => Some(reply)
    case Read(Ok(reply), _) => Some(reply)
    case _ => None
  }

  function Stamp(row: OrderRow, now: int): OrderRow {
    if IsTerminal(row.status) then row.(terminalAt := Some(now)) else row
  }

  function Touched(row: OrderRow, t: Touch): OrderRow {
    if !Reaches(row, t) then row
    else
      match t
      case Refuse(now) => row.(status := OrderStatus.REJECTED, terminalAt := Some(now))
      case GiveUp(now) => row.(status := OrderStatus.FAILED, terminalAt := Some(now))
      case Acknowledge(reply, now) =>
        if WellFormed(reply) then Stamp(Updated(row, reply), now)
        else Torn(row, reply).(status := OrderStatus.FAILED, terminalAt := Some(now))  // the safety net
      case Cancel(Ok(reply), now) =>
        if WellFormed(reply) then Updated(row, reply).(terminalAt := Some(now)) else Torn(row, reply)
      case BotRead(Ok(reply), now) =>
        if WellFormed(reply) then Stamp(Updated(row, reply), now) else Torn(row, reply)
      case Read(Ok(reply), now) =>
        // A malformed reply fails the read and nothing is committed.
        if !WellFormed(reply) then row
        else if Updated(row, reply) == row then row
        else Stamp(Updated(row, reply), now)
  }

  /** Every operation in the reply's own terms: a readable reply is reflected, and the end of the order
      timed; an unreadable one is reflected in part, and a submission then fails. */
  lemma TouchedReflects(row: OrderRow, t: Touch, reply: ExchangeOrder)
    requires ReplyIn(t) == Some(reply)
    requires row.status in if t.Acknowledge? then {PENDING} else if t.Read? then OPEN else {NEW, PARTIALLY_FILLED}
    ensures var after := Touched(row, t);
            if WellFormed(reply) then
              if t.Cancel? then Reflects(after, reply, row) && after.terminalAt == Some(t.now)
              else ReflectsAndStamps(after, reply, row, t.now)
            else if t.Read? then after == row
            else if t.Acknowledge? then after.status == OrderStatus.FAILED && after.terminalAt == Some(t.now)
            else ReflectsInPart(after, reply, row)
  {
    OpenIsNotTerminal(row.status);
    if WellFormed(reply) {
      UpdatedReflects(row, reply);
      OpenIsNotTerminal(Updated(row, reply).status);
    } else {
      TornReflectsInPart(row, reply);
    }
  }

  function TouchAll(row: OrderRow, touches: seq<Touch>): OrderRow {
    if touches == [] then row
    else Touched(TouchAll(row, touches[..|touches| - 1]), touches[|touches| - 1])
  }

  /** A terminal row says when it became terminal. */
  predicate Sealed(row: OrderRow) { IsTerminal(row.status) ==> row.terminalAt.Some? }

  /** A cancellation or a bot's read gets a known terminal status with an unreadable number. */
  predicate Tears(row: OrderRow, t: Touch) {
    && (t.Cancel? || t.BotRead?) && Reaches(row, t)
    && !WellFormed(t.answer.value) && KnownStatus(t.answer.value)
    && t.answer.value.status.Some? && IsTerminal(MapBinanceStatus(t.answer.value.status.value).value)
    && row.terminalAt.None?
  }

  /** One operation keeps the seal exactly when it does not tear. */
  lemma SealKeptExactlyWithoutTear(row: OrderRow, t: Touch)
    requires Sealed(row)
    ensures Sealed(Touched(row, t)) <==> !Tears(row, t)
  {
    if Reaches(row, t) && (t.Cancel? || t.BotRead?) && !WellFormed(t.answer.value) {
      var torn := Torn(row, t.answer.value);
      assert Touched(row, t) == torn && torn.terminalAt == row.terminalAt;
    }
  }

  ghost predicate NeverTears(row: OrderRow, touches: seq<Touch>) {
    forall i :: 0 <= i < |touches| ==> !Tears(TouchAll(row, touches[..i]), touches[i])
  }

  ghost predicate ReportsFilled(t: Touch) {
    ReplyIn(t).Some? && ReplyIn(t).value.status == Some("FILLED")
  }

  lemma TouchFacts(row: OrderRow, t: Touch)
    ensures IsTerminal(row.status) ==> Touched(row, t) == row
    ensures Touched(row, t).status == FILLED && row.status != FILLED ==> ReportsFilled(t)
  {
    if Reaches(row, t) && ReplyIn(t).Some? {
      var reply := ReplyIn(t).value;
      assert reply.status.Some? && MapBinanceStatus(reply.status.value) == Some(FILLED) ==>
          reply.status == Some("FILLED");
    }
  }

  /** Over any sequence of operations on one row: a terminal row is never written
      again, FILLED was reported by the exchange, and without a torn reply a terminal
      row carries its time. */
  lemma {:induction false} OrderRowOverRuns(touches: seq<Touch>, n: nat)
    requires n <= |touches|
    ensures var row, later := TouchAll(NEW_ROW, touches[..n]), TouchAll(NEW_ROW, touches);
            && (IsTerminal(row.status) ==> later == row)
            && (later.status == FILLED ==> exists i :: 0 <= i < |touches| && ReportsFilled(touches[i]))
            && (NeverTears(NEW_ROW, touches) ==> Sealed(later))
  {
    if touches == [] {
      assert touches[..n] == [];
    } else {
      var front, t := touches[..|touches| - 1], touches[|touches| - 1];
      var before := TouchAll(NEW_ROW, front);
      TouchFacts(before, t);
      if n < |touches| {
        OrderRowOverRuns(front, n);
        assert front[..n] == touches[..n];
      } else {
        OrderRowOverRuns(front, |front|);
        assert touches[..n] == touches;
      }
      if before.status == FILLED {
        var i :| 0 <= i < |front| && ReportsFilled(front[i]);
        assert ReportsFilled(touches[i]);
      } else if TouchAll(NEW_ROW, touches).status == FILLED {
        assert ReportsFilled(touches[|touches| - 1]);
      }
      if NeverTears(NEW_ROW, touches) {
        forall i | 0 <= i < |front| ensures !Tears(TouchAll(NEW_ROW, front[..i]), front[i]) {
          assert front[..i] == touches[..i];
        }
        SealKeptExactlyWithoutTear(before, t);
      }
    }
  }

  /** A cancellation answered with an unreadable quantity leaves CANCELED without a time. */
  lemma TornCancellationHasNoTime()
    ensures var ack := Acknowledge(ExchangeOrder(Some("NEW"), Some("1"), None, None), 1);
            var cancel := Cancel(Ok(ExchangeOrder(Some("CANCELED"), None, Some(Garbage), None)), 2);
            var row := TouchAll(NEW_ROW, [ack, cancel]);
            row.status == CANCELED && !Sealed(row)
  {
    var ack := Acknowledge(ExchangeOrder(Some("NEW"), Some("1"), None, None), 1);
    var cancel := Cancel(Ok(ExchangeOrder(Some("CANCELED"), None, Some(Garbage), None)), 2);
    var open := OrderRow(NEW, Some("1"), 0.0, None, None);
    assert [ack, cancel][..1] == [ack] && [ack][..0] == [];
    assert Touched(NEW_ROW, ack) == open;
    assert TouchAll(NEW_ROW, [ack]) == open;
    assert Touched(open, cancel) == open.(status := CANCELED);
  }

  // ---- Reconcile-on-read ---------------------------------------------------------------------------------

  /** The read path on an order object, best effort: no client, a terminal row or an
      unreachable exchange leave it alone. */
  method ReconcileOnRead(order: Order, client: bool, answer: Answer<ExchangeOrder>, now: int) returns (raised: bool)
    modifies order
    ensures var asked := client && old(order.status) in OPEN && !answer.BinanceFailure?;
            && (raised <==> asked && (answer.OtherFailure? || !WellFormed(answer.value)))
            && (!asked ==> order.Row() == old(order.Row()))
            && (asked && !raised ==> ReflectsAndStamps(order.Row(), answer.value, old(order.Row()), now))
            && (raised && answer.Ok? ==> ReflectsInPart(order.Row(), answer.value, old(order.Row())))
    ensures client && !raised ==> order.Row() == Touched(old(order.Row()), Read(answer, now))
  {
    OpenIsNotTerminal(order.status);
    if !client || IsTerminal(order.status) || answer.BinanceFailure? {
      return false;
    }
    if answer.OtherFailure? {
      return true;
    }
    var changed := ReconcileFromBinancePayload(order, answer.value);
    if changed.None? {
      return true;
    }
    if changed.value && IsTerminal(order.status) {
      order.terminalAt := Some(now);
    }
    return false;
  }
}
