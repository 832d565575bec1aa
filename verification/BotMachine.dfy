/** One bot and its virtual account, as the sequence of completed operations changes them. */
module BotMachine {
  import opened Common
  import opened Idempotency
  import opened Alternation
  import opened RoundTrips
  import opened SimulationLedger

  datatype Mode = SIMULATION | LIVE

  datatype Status = ACTIVE | PAUSING | PAUSED | RESUMING | STOPPED | ERROR

  datatype Bot = Bot(user: nat, symbol: string, mode: Mode, status: Status, current: real, target: real)

  /** How the order placed by a transition came out.
      Malformed: the reply could not be interpreted outside the guarded region. */
  datatype Outcome = Disabled | Rejected | Filled | Unresolved | Raised | Malformed

  /** A bot together with its simulation account and order rows. */
  datatype Desk = Desk(bot: Bot, ledger: Ledger)

  /** The operations that may change a desk. */
  datatype Event =
    | UpdateTarget(target: Option<real>)
    | Stop
    | GoLive(connected: bool)
    | LiveTransition(op: Op, outcome: Outcome)
    | SimTransition(op: Op, market: Market)

  function From(op: Op): Status { if op.Pause? then ACTIVE else PAUSED }

  function During(op: Op): Status { if op.Pause? then PAUSING else RESUMING }

  function SideOf(op: Op): Side { if op.Pause? then SELL else BUY }

  function QuantityOf(op: Op, bot: Bot): real { if op.Pause? then bot.current else bot.target }

  function NewDesk(user: nat, symbol: string, target: real, capital: real): Desk {
    Desk(Bot(user, symbol, SIMULATION, PAUSED, 0.0, target), Ledger(capital, capital, []))
  }

  /** The outcome table of a pause or resume. */
  function Settle(bot: Bot, op: Op, outcome: Outcome): Bot {
    match outcome
    case Disabled => bot
    case Rejected => bot
    case Filled =>
      if op.Pause? then bot.(status := PAUSED, current := 0.0) else bot.(status := ACTIVE, current := bot.target)
    case Unresolved => bot.(status := ERROR)
    case Raised => bot.(status := ERROR)
    case Malformed => bot.(status := During(op))
  }

  function OutcomeOf(a: Attempt): Outcome {
    match a
    case TradingDisabled => Disabled
    case Raised => Outcome.Raised
    case Booked(FilledOrder(_, _, _, _, _, _), _) => Filled
    case Booked(UnfilledOrder(_, _, status, _), _) => if status == Miss.Rejected then Outcome.Rejected else Unresolved
  }

  function AttemptOf(d: Desk, op: Op, m: Market): Attempt {
    PlaceBotOrder(d.ledger, d.bot.symbol, d.bot.current, SideOf(op), QuantityOf(op, d.bot), m)
  }

  /** Whether the operation is accepted in this state; a refused one changes nothing. */
  predicate Admits(bot: Bot, e: Event) {
    match e
    case UpdateTarget(_) => bot.status == PAUSED
    case Stop => bot.status in {ACTIVE, PAUSED, ERROR}
    case GoLive(connected) => bot.mode == SIMULATION && bot.status == PAUSED && connected
    case LiveTransition(op, _) => bot.mode == LIVE && bot.status == From(op)
    case SimTransition(op, _) => bot.mode == SIMULATION && bot.status == From(op)
  }

  function Step(d: Desk, e: Event): Desk {
    if !Admits(d.bot, e) then d
    else
      match e
      case UpdateTarget(target) => if target.Some? then d.(bot := d.bot.(target := target.value)) else d
      case Stop => d.(bot := d.bot.(status := STOPPED))
      case GoLive(_) => d.(bot := d.bot.(mode := LIVE))
      case LiveTransition(op, outcome) => d.(bot := Settle(d.bot, op, outcome))
      case SimTransition(op, market) =>
        var attempt := AttemptOf(d, op, market);
        Desk(Settle(d.bot, op, OutcomeOf(attempt)), Record(d.ledger, attempt))
  }

  function Run(d: Desk, events: seq<Event>): Desk {
    if events == [] then d else Step(Run(d, events[..|events| - 1]), events[|events| - 1])
  }

  lemma RunSnoc(d: Desk, events: seq<Event>, e: Event)
    ensures Run(d, events + [e]) == Step(Run(d, events), e)
  {
    assert (events + [e])[..|events|] == events;
  }

  // ---- Lifecycle ------------------------------------------------------------------------------

  /** What a bot's status says about its holding. */
  ghost predicate Lifecycle(bot: Bot) {
    && (bot.status in {ACTIVE, PAUSING} ==> bot.current == bot.target)
    && (bot.status in {PAUSED, RESUMING} ==> bot.current == 0.0)
    && (bot.current == 0.0 || bot.current == bot.target)
  }

  ghost predicate IsMalformed(e: Event) {
    e.LiveTransition? && e.outcome.Malformed?
  }

  lemma {:induction false} LifecycleOverRuns(user: nat, symbol: string, target: real, capital: real, events: seq<Event>)
    ensures Lifecycle(Run(NewDesk(user, symbol, target, capital), events).bot)
  {
    if events != [] {
      LifecycleOverRuns(user, symbol, target, capital, events[..|events| - 1]);
    }
  }

  /** A bot is left in PAUSING or RESUMING exactly by a malformed reply to an
      admitted transition, and then for good. */
  lemma {:induction false} StuckExactlyAfterMalformedReply(d: Desk, events: seq<Event>)
    requires d.bot.status !in {PAUSING, RESUMING}
    ensures Run(d, events).bot.status in {PAUSING, RESUMING}
       <==> exists i :: 0 <= i < |events| && IsMalformed(events[i]) && Admits(Run(d, events[..i]).bot, events[i])
  {
    if events != [] {
      var n := |events| - 1;
      var front := events[..n];
      StuckExactlyAfterMalformedReply(d, front);
      assert forall i :: 0 <= i < n ==> events[..i] == front[..i];
      if Run(d, front).bot.status in {PAUSING, RESUMING} {
        var i :| 0 <= i < n && IsMalformed(front[i]) && Admits(Run(d, front[..i]).bot, front[i]);
        assert IsMalformed(events[i]) && Admits(Run(d, events[..i]).bot, events[i]);
      } else if Run(d, events).bot.status in {PAUSING, RESUMING} {
        assert IsMalformed(events[n]) && Admits(Run(d, events[..n]).bot, events[n]);
      }
    }
  }

  /** STOPPED, like a stuck transition, has no exit; ERROR can only be left for
      STOPPED; LIVE is for good and is entered with an empty holding. */
  lemma {:induction false} OneWayDoors(d: Desk, events: seq<Event>)
    requires Lifecycle(d.bot)
    ensures Lifecycle(Run(d, events).bot)
    ensures d.bot.status in {STOPPED, PAUSING, RESUMING} ==> Run(d, events).bot == d.bot
    ensures d.bot.status == ERROR ==> Run(d, events).bot in {d.bot, d.bot.(status := STOPPED)}
    ensures d.bot.mode == LIVE ==> Run(d, events).bot.mode == LIVE && Run(d, events).ledger == d.ledger
    ensures d.bot.mode == SIMULATION && Run(d, events).bot.mode == LIVE ==>
              exists i :: 0 <= i < |events| && events[i].GoLive? && Promotes(Run(d, events[..i]).bot)
  {
    if events != [] {
      var n := |events| - 1;
      var front := events[..n];
      OneWayDoors(d, front);
      assert forall i :: 0 <= i < n ==> events[..i] == front[..i];
      if d.bot.mode == SIMULATION && Run(d, events).bot.mode == LIVE {
        if Run(d, front).bot.mode == LIVE {
          var i :| 0 <= i < |front| && front[i].GoLive? && Promotes(Run(d, front[..i]).bot);
          assert events[i].GoLive? && Promotes(Run(d, events[..i]).bot);
        } else {
          assert events[n].GoLive? && Promotes(Run(d, events[..n]).bot);
        }
      }
    }
  }

  ghost predicate Promotes(bot: Bot) {
    bot.mode == SIMULATION && bot.status == PAUSED && bot.current == 0.0
  }

  // ---- Ledger coupled to the state machine --------------------------------------------------------

  function VirtualExposure(ledger: Ledger): Exposure { ExposureOf(Legs(Fills(ledger.orders))) }

  /** The filled rows alternate, the cash is the capital plus what they moved, and
      a simulated bot holds what they leave; a live bot's ledger is closed and flat. */
  ghost predicate Coupled(d: Desk) {
    var e := VirtualExposure(d.ledger);
    && d.ledger.cash == d.ledger.initialCapital + CashFlows(Fills(d.ledger.orders))
    && (d.bot.mode == SIMULATION ==> e == HoldingOf(d.bot))
    && (d.bot.mode == LIVE ==> e == Flat)
    && Lifecycle(d.bot)
  }

  lemma FillsSnoc(orders: seq<SimOrder>, order: SimOrder)
    ensures Fills(orders + [order]) == Fills(orders) + if order.FilledOrder? then [AsFill(order)] else []
    ensures Frictions(orders + [order]) == Frictions(orders) + Friction(order)
  {
    assert (orders + [order])[..|orders|] == orders;
  }

  lemma CashMovesByItsFlow(cash: real, order: SimOrder)
    requires order.FilledOrder?
    ensures CashAfter(cash, order) == cash + CashFlow(AsFill(order))
  {
  }

  /** Booking a row moves cash by the row's cash flow and the exposure by its leg. */
  lemma RecordBooks(orders: seq<SimOrder>, order: SimOrder, cash: real)
    ensures CashAfter(cash, order) - cash == CashFlows(Fills(orders + [order])) - CashFlows(Fills(orders))
    ensures order.FilledOrder? ==> ExposureOf(Legs(Fills(orders + [order])))
                                     == After(ExposureOf(Legs(Fills(orders))), Leg(order.side, order.quantity))
    ensures order.UnfilledOrder? ==> Fills(orders + [order]) == Fills(orders)
  {
    FillsSnoc(orders, order);
    var fills := Fills(orders);
    if order.FilledOrder? {
      var fill := AsFill(order);
      LegsSnoc(fills, fill);
      ExposureSnoc(Legs(fills), Leg(order.side, order.quantity));
      CashMovesByItsFlow(cash, order);
      assert CashFlows(fills + [fill]) == CashFlows(fills) + CashFlow(fill);
    } else {
      assert fills + [] == fills;
    }
  }

  lemma AttemptFacts(d: Desk, op: Op, m: Market)
    ensures var a := AttemptOf(d, op, m);
            && (a.Booked? ==> a.cash == CashAfter(d.ledger.cash, a.order))
            && (a.Booked? && a.order.FilledOrder? ==>
                  a.order.side == SideOf(op) && a.order.quantity == QuantityOf(op, d.bot) > 0.0)
  {
    var a := AttemptOf(d, op, m);
    if a.Booked? && a.order.FilledOrder? {
      FillPassedGates(d.ledger, d.bot.symbol, d.bot.current, SideOf(op), QuantityOf(op, d.bot), m);
    }
  }

  lemma StepKeepsCoupling(d: Desk, e: Event)
    requires Coupled(d)
    ensures Coupled(Step(d, e))
  {
    if e.SimTransition? && Admits(d.bot, e) {
      var attempt := AttemptOf(d, e.op, e.market);
      AttemptFacts(d, e.op, e.market);
      SimStepKeepsCoupling(d, e.op, attempt);
    }
  }

  /** What a simulated bot holds, as an exposure. */
  function HoldingOf(bot: Bot): Exposure { if bot.current == 0.0 then Flat else Long(bot.current) }

  /** The bot's new state matches the exposure its attempt left behind. */
  lemma SettleMatchesExposure(bot: Bot, op: Op, a: Attempt, after: Exposure)
    requires Lifecycle(bot) && bot.status == From(op)
    requires if a.Booked? && a.order.FilledOrder?
             then a.order.side == SideOf(op) && a.order.quantity == QuantityOf(op, bot) > 0.0
                  && after == After(HoldingOf(bot), Leg(a.order.side, a.order.quantity))
             else after == HoldingOf(bot)
    ensures var next := Settle(bot, op, OutcomeOf(a));
            Lifecycle(next) && next.mode == bot.mode && after == HoldingOf(next)
  {
  }

  lemma SimStepKeepsCoupling(d: Desk, op: Op, a: Attempt)
    requires Coupled(d) && d.bot.mode == SIMULATION && d.bot.status == From(op)
    requires a.Booked? ==> a.cash == CashAfter(d.ledger.cash, a.order)
    requires a.Booked? && a.order.FilledOrder? ==>
               a.order.side == SideOf(op) && a.order.quantity == QuantityOf(op, d.bot) > 0.0
    ensures Coupled(Desk(Settle(d.bot, op, OutcomeOf(a)), Record(d.ledger, a)))
  {
    if a.Booked? {
      RecordBooks(d.ledger.orders, a.order, d.ledger.cash);
    }
    SettleMatchesExposure(d.bot, op, a, VirtualExposure(Record(d.ledger, a)));
  }

  lemma {:induction false} CoupledOverRuns(user: nat, symbol: string, target: real, capital: real, events: seq<Event>)
    ensures Coupled(Run(NewDesk(user, symbol, target, capital), events))
  {
    if events != [] {
      CoupledOverRuns(user, symbol, target, capital, events[..|events| - 1]);
      StepKeepsCoupling(Run(NewDesk(user, symbol, target, capital), events[..|events| - 1]), events[|events| - 1]);
    }
  }

  /** On every run the filled simulation orders alternate BUY, SELL with equal
      quantities, and a simulated bot holds exactly their net quantity. */
  lemma LedgerFollowsTheBot(user: nat, symbol: string, target: real, capital: real, events: seq<Event>)
    ensures var d := Run(NewDesk(user, symbol, target, capital), events);
            var legs := Legs(Fills(d.ledger.orders));
            && Alternates(legs)
            && (d.bot.mode == SIMULATION ==> d.bot.current == Net(legs))
            && (d.bot.mode == LIVE ==> Net(legs) == 0.0)
            && d.ledger.cash == capital + CashFlows(Fills(d.ledger.orders))
  {
    var d := Run(NewDesk(user, symbol, target, capital), events);
    CoupledOverRuns(user, symbol, target, capital, events);
    UnbrokenMeansAlternating(Legs(Fills(d.ledger.orders)));
    CapitalIsFrozen(NewDesk(user, symbol, target, capital), events);
  }

  lemma {:induction false} CapitalIsFrozen(d: Desk, events: seq<Event>)
    ensures Run(d, events).ledger.initialCapital == d.ledger.initialCapital
  {
    if events != [] {
      CapitalIsFrozen(d, events[..|events| - 1]);
    }
  }
}
