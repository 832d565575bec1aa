/** What the exchange holds for one bot, in all interleavings that lose none of its calls. */
module ProtocolTrading {
  import opened Common
  import opened Idempotency
  import opened Alternation
  import opened BotMachine
  import opened Requests
  import opened Protocol
  import SimulationLedger
  import opened ProtocolSafety
  import opened ProtocolCalls

  // ---- Settled orders ----------------------------------------------------------------------------

  ghost predicate Settled(c: Call, fate: Fates) {
    c.cid in fate && fate[c.cid].status in {FILLED, OrderStatus.REJECTED}
  }

  ghost predicate AllSettled(cs: seq<Call>, fate: Fates) {
    forall i :: 0 <= i < |cs| ==> Settled(cs[i], fate)
  }

  /** The legs of the orders that were filled, in order. */
  function FilledLegs(cs: seq<Call>, fate: Fates): seq<Leg> {
    if cs == [] then []
    else
      var c := cs[|cs| - 1];
      FilledLegs(cs[..|cs| - 1], fate)
        + if c.cid in fate && fate[c.cid].status == FILLED then [Leg(c.side, c.quantity)] else []
  }

  function Exposed(cs: seq<Call>, fate: Fates): Exposure { ExposureOf(FilledLegs(cs, fate)) }

  lemma ExposedSnoc(cs: seq<Call>, c: Call, fate: Fates)
    ensures Exposed(cs + [c], fate) ==
              if c.cid in fate && fate[c.cid].status == FILLED then After(Exposed(cs, fate), Leg(c.side, c.quantity))
              else Exposed(cs, fate)
  {
    assert (cs + [c])[..|cs|] == cs;
    if c.cid in fate && fate[c.cid].status == FILLED {
      ExposureSnoc(FilledLegs(cs, fate), Leg(c.side, c.quantity));
    } else {
      assert FilledLegs(cs, fate) + [] == FilledLegs(cs, fate);
    }
  }

  lemma {:induction false} LegsFrame(cs: seq<Call>, fate: Fates, fate': Fates)
    requires AllSettled(cs, fate)
    requires forall i :: 0 <= i < |cs| ==> cs[i].cid in fate' && fate'[cs[i].cid] == fate[cs[i].cid]
    ensures AllSettled(cs, fate') && FilledLegs(cs, fate') == FilledLegs(cs, fate)
  {
    if cs != [] {
      assert Settled(cs[|cs| - 1], fate);
      LegsFrame(cs[..|cs| - 1], fate, fate');
    }
  }

  // ---- The invariant of one bot --------------------------------------------------------------------

  ghost predicate Matches(e: Exposure, q: real) { e == if q == 0.0 then Flat else Long(q) }

  /** Every order sent was accepted and settled, and the holding is what they leave. */
  ghost predicate Quiet(C: seq<Call>, B: seq<Call>, fate: Fates, q: real) {
    B == C && AllSettled(C, fate) && Matches(Exposed(C, fate), q)
  }

  ghost predicate Legal(c: Call, q: real) {
    c.quantity > 0.0 && if c.side == BUY then q == 0.0 else c.quantity == q
  }

  /** All orders but the last one sent are settled; the last may be in any state, or never arrive. */
  ghost predicate Busy(C: seq<Call>, B: seq<Call>, fate: Fates, q: real) {
    |C| > 0 && var P := C[..|C| - 1];
    && (B == P || B == C)
    && AllSettled(P, fate) && Matches(Exposed(P, fate), q) && Legal(C[|C| - 1], q)
  }

  /** How a bot looks from outside: an order of it is under way, it does not
      exist yet, or its row is this. */
  datatype View = InFlight(holding: real, call: nat) | Unborn | Known(bot: Bot)

  /** The session that has locked the bot's row. */
  function HolderOf(s: Sys, b: nat): Option<Session> {
    if b in s.locks && s.locks[b] in s.sessions then Some(s.sessions[s.locks[b]]) else None
  }

  function LastOf(s: Sys, b: nat): Option<Bot> { if b in s.hist then Some(s.hist[b].last.bot) else None }

  /** The bot as it is committed: once the holder of its row has called, an order is under way. */
  function RowView(last: Option<Bot>, holder: Option<Session>): View {
    if last.None? then Unborn
    else if holder.Some? && holder.value.call.Some? then InFlight(last.value.current, holder.value.call.value)
    else Known(last.value)
  }

  /** The bot as it will be as soon as the holder of its row commits. */
  function NextView(last: Option<Bot>, holder: Option<Session>): View {
    if last.Some? && holder.Some? && holder.value.write.Put? then Known(holder.value.write.desk.bot)
    else RowView(last, holder)
  }

  ghost predicate Fits(b: nat, view: View, calls: seq<Call>, book: seq<Call>, fate: Fates) {
    var C, B := Of(calls, b), Of(book, b);
    match view
    case InFlight(q, call) => Busy(C, B, fate, q) && call < |calls| && C[|C| - 1] == calls[call]
    case Unborn => C == [] && B == []
    case Known(bot) =>
      if bot.mode == SIMULATION then C == [] && B == []
      else if bot.status in {ACTIVE, PAUSED} then Quiet(C, B, fate, bot.current)
      else Quiet(C, B, fate, bot.current) || Busy(C, B, fate, bot.current)
  }

  ghost predicate FitsBoth(b: nat, last: Option<Bot>, holder: Option<Session>, calls: seq<Call>, book: seq<Call>,
                           fate: Fates) {
    Fits(b, RowView(last, holder), calls, book, fate) && Fits(b, NextView(last, holder), calls, book, fate)
  }

  ghost predicate Tracks(s: Sys, b: nat) { FitsBoth(b, LastOf(s, b), HolderOf(s, b), s.calls, s.book, s.fate) }

  ghost predicate Traded(s: Sys, b: nat) { Recorded(s) && DistinctFor(s.calls, b) && Tracks(s, b) }

  // ---- Facts about one bot ----------------------------------------------------------------------------

  /** No two orders of the bot were sent under one id. */
  ghost predicate DistinctFor(calls: seq<Call>, b: nat) {
    forall i, j :: 0 <= i < j < |calls| && IsFor(calls[i], b) ==> calls[i].cid != calls[j].cid
  }

  lemma {:induction false} OfKeepsDistinct(cs: seq<Call>, b: nat)
    requires DistinctFor(cs, b)
    ensures DistinctIds(Of(cs, b))
  {
    if cs != [] {
      var front, last := cs[..|cs| - 1], cs[|cs| - 1];
      OfKeepsDistinct(front, b);
      OfMembers(front, b);
      var o := Of(front, b);
      forall i | 0 <= i < |o| ensures o[i].cid != last.cid {
        assert o[i] in front && IsFor(o[i], b);
      }
    }
  }

  lemma KnownFateMeansArrived(calls: seq<Call>, book: seq<Call>, fate: Fates, b: nat, c: Call)
    requires BookOk(calls, book, fate) && DistinctFor(calls, b) && c in calls && IsFor(c, b) && c.cid in fate
    ensures c in Of(book, b)
  {
    assert HasEntry(book, c.cid);
    var i :| 0 <= i < |book| && book[i].cid == c.cid;
    assert EntryOk(book[i], calls, fate);
    var j :| 0 <= j < |calls| && calls[j] == c;
    assert calls[book[i].index] == book[i];
    OfMembers(book, b);
  }

  lemma LastIsNew(cs: seq<Call>)
    requires DistinctIds(cs) && cs != []
    ensures cs[|cs| - 1] !in cs[..|cs| - 1]
  {
  }

  function HoldingAfter(c: Call, fate: Fates, q: real): real {
    if c.cid in fate && fate[c.cid].status == FILLED then (if c.side == BUY then c.quantity else 0.0) else q
  }

  /** The last order turned out FILLED or REJECTED: the bot is quiet again. */
  lemma LastOneSettles(C: seq<Call>, B: seq<Call>, fate: Fates, q: real)
    requires Busy(C, B, fate, q) && Settled(C[|C| - 1], fate)
    requires C[|C| - 1] in B && C[|C| - 1] !in C[..|C| - 1]
    ensures Quiet(C, B, fate, HoldingAfter(C[|C| - 1], fate, q))
  {
    var P, c := C[..|C| - 1], C[|C| - 1];
    assert C == P + [c] && B == C;
    ExposedSnoc(P, c, fate);
    forall i | 0 <= i < |C| ensures Settled(C[i], fate) {
      if i < |P| {
        assert Settled(P[i], fate);
      }
    }
  }

  lemma BusySettles(calls: seq<Call>, book: seq<Call>, fate: Fates, b: nat, q: real)
    requires BookOk(calls, book, fate) && DistinctFor(calls, b)
    requires Busy(Of(calls, b), Of(book, b), fate, q)
    requires var C := Of(calls, b); Settled(C[|C| - 1], fate)
    ensures var C := Of(calls, b); Quiet(C, Of(book, b), fate, HoldingAfter(C[|C| - 1], fate, q))
  {
    var C := Of(calls, b);
    OfMembers(calls, b);
    OfKeepsDistinct(calls, b);
    KnownFateMeansArrived(calls, book, fate, b, C[|C| - 1]);
    LastIsNew(C);
    LastOneSettles(C, Of(book, b), fate, q);
  }

  /** Orders that are settled stay as they are, so nothing the invariant uses moves. */
  lemma FateMoves(b: nat, view: View, calls: seq<Call>, book: seq<Call>, fate: Fates, fate': Fates)
    requires Fits(b, view, calls, book, fate)
    requires forall cid :: cid in fate && fate[cid].status in {FILLED, OrderStatus.REJECTED} ==>
                             cid in fate' && fate'[cid] == fate[cid]
    ensures Fits(b, view, calls, book, fate')
  {
    var C := Of(calls, b);
    if AllSettled(C, fate) {
      SettledFrame(C, fate, fate');
    }
    if C != [] && AllSettled(C[..|C| - 1], fate) {
      SettledFrame(C[..|C| - 1], fate, fate');
    }
  }

  lemma SettledFrame(cs: seq<Call>, fate: Fates, fate': Fates)
    requires AllSettled(cs, fate)
    requires forall cid :: cid in fate && fate[cid].status in {FILLED, OrderStatus.REJECTED} ==>
                             cid in fate' && fate'[cid] == fate[cid]
    ensures AllSettled(cs, fate') && Exposed(cs, fate') == Exposed(cs, fate)
  {
    forall i | 0 <= i < |cs| ensures cs[i].cid in fate' && fate'[cs[i].cid] == fate[cs[i].cid] {
      assert Settled(cs[i], fate);
    }
    LegsFrame(cs, fate, fate');
  }

  lemma UnknownIsUnsettled(cs: seq<Call>, fate: Fates, c: Call)
    ensures AllSettled(cs, fate) && c.cid !in fate ==> c !in cs
  {
    if AllSettled(cs, fate) && c.cid !in fate {
      forall i | 0 <= i < |cs| ensures cs[i] != c {
        assert Settled(cs[i], fate);
      }
    }
  }

  lemma UnknownIsNotBooked(calls: seq<Call>, book: seq<Call>, fate: Fates, c: Call)
    requires BookOk(calls, book, fate) && c.cid !in fate
    ensures c !in book
  {
    forall i | 0 <= i < |book| ensures book[i] != c {
      assert EntryOk(book[i], calls, fate);
    }
  }

  lemma ArrivalKeepsBusy(C: seq<Call>, B: seq<Call>, fate: Fates, q: real, c: Call)
    requires Busy(C, B, fate, q) && c in C && c !in C[..|C| - 1] && c !in B
    ensures Busy(C, B + [c], fate, q)
  {
    assert C == C[..|C| - 1] + [C[|C| - 1]];
  }

  /** Only the last order of a bot can still be on its way. */
  lemma AcceptFits(b: nat, view: View, calls: seq<Call>, book: seq<Call>, fate: Fates, call: nat, f: Fate)
    requires BookOk(calls, book, fate) && Fits(b, view, calls, book, fate)
    requires call < |calls| && calls[call].cid !in fate
    ensures Fits(b, view, calls, book + [calls[call]], fate[calls[call].cid := f])
  {
    var c := calls[call];
    var C, B := Of(calls, b), Of(book, b);
    var fate' := fate[c.cid := f];
    FateMoves(b, view, calls, book, fate, fate');
    OfSnoc(book, c, b);
    if IsFor(c, b) {
      OfMembers(calls, b);
      OfMembers(book, b);
      UnknownIsNotBooked(calls, book, fate, c);
      UnknownIsUnsettled(C, fate, c);
      assert c in C && !AllSettled(C, fate) && C != [];
      UnknownIsUnsettled(C[..|C| - 1], fate, c);
      var q := match view case InFlight(q, _) => q case Known(bot) => bot.current case Unborn => 0.0;
      assert Busy(C, B, fate, q);
      assert Busy(C, B, fate', q) by {
        SettledFrame(C[..|C| - 1], fate, fate');
      }
      ArrivalKeepsBusy(C, B, fate', q, c);
    }
  }

  lemma CallFitsOthers(b: nat, view: View, calls: seq<Call>, book: seq<Call>, fate: Fates, c: Call)
    requires Fits(b, view, calls, book, fate) && !IsFor(c, b)
    ensures Fits(b, view, calls + [c], book, fate)
  {
    OfSnoc(calls, c, b);
  }

  /** A quiet bot may send the one order that its holding allows. */
  lemma CallFits(b: nat, q: real, calls: seq<Call>, book: seq<Call>, fate: Fates, c: Call)
    requires Quiet(Of(calls, b), Of(book, b), fate, q) && IsFor(c, b) && Legal(c, q)
    ensures Fits(b, InFlight(q, |calls|), calls + [c], book, fate)
  {
    OfSnoc(calls, c, b);
    assert (Of(calls, b) + [c])[..|Of(calls, b)|] == Of(calls, b);
  }

  // ---- How outcomes fit ---------------------------------------------------------------------------------

  /** The outcome a transition may settle on, given what became of its order. */
  ghost predicate Truthful(outcome: Outcome, cid: KeyId, fate: Fates) {
    && (outcome.Filled? ==> cid in fate && fate[cid].status == FILLED)
    && (outcome.Rejected? ==> cid in fate && fate[cid].status == OrderStatus.REJECTED)
    && !outcome.Disabled?
  }

  lemma SettleFits(calls: seq<Call>, book: seq<Call>, fate: Fates, b: nat, call: nat, bot: Bot, op: Op,
                   outcome: Outcome)
    requires BookOk(calls, book, fate) && DistinctFor(calls, b)
    requires bot.mode == LIVE && bot.status == From(op)
    requires call < |calls| && Fits(b, InFlight(bot.current, call), calls, book, fate)
    requires calls[call].side == SideOf(op) && calls[call].quantity == QuantityOf(op, bot)
    requires Truthful(outcome, calls[call].cid, fate)
    ensures Fits(b, Known(Settle(bot, op, outcome)), calls, book, fate)
  {
    if outcome.Filled? || outcome.Rejected? {
      BusySettles(calls, book, fate, b, bot.current);
    }
  }

  lemma LiveEventSettles(d: Desk, op: Op, outcome: Outcome)
    requires d.bot.mode == LIVE && d.bot.status == From(op)
    ensures BotMachine.Step(d, LiveTransition(op, outcome)).bot == Settle(d.bot, op, outcome)
  {
  }

  lemma NothingSentFits(b: nat, bot: Bot, op: Op, outcome: Outcome, calls: seq<Call>, book: seq<Call>, fate: Fates)
    requires bot.mode == LIVE && bot.status == From(op) && Fits(b, Known(bot), calls, book, fate)
    requires outcome in {Disabled, Rejected, Outcome.Raised, Malformed}
    ensures Fits(b, Known(Settle(bot, op, outcome)), calls, book, fate)
  {
  }

  lemma StatusIsTruthful(status: OrderStatus, cid: KeyId, fate: Fates)
    requires status == OrderStatus.FAILED || Reportable(status, cid, fate)
    ensures Truthful(OutcomeOfStatus(status), cid, fate)
  {
  }

  lemma PassLegal(bot: Bot, op: Op)
    requires Lifecycle(bot) && bot.status == From(op) && QuantityOf(op, bot) > 0.0
    ensures forall i: nat, cid :: Legal(Call(i, cid, SideOf(op), QuantityOf(op, bot)), bot.current)
  {
  }

  lemma SimulationStaysOff(d: Desk, op: Op, market: SimulationLedger.Market)
    ensures BotMachine.Step(d, SimTransition(op, market)).bot.mode == d.bot.mode
  {
  }

  lemma ManagedFits(b: nat, d: Desk, event: Event, calls: seq<Call>, book: seq<Call>, fate: Fates)
    requires Lifecycle(d.bot) && Fits(b, Known(d.bot), calls, book, fate)
    requires event.UpdateTarget? || event.Stop? || event.GoLive?
    ensures Fits(b, Known(BotMachine.Step(d, event).bot), calls, book, fate)
  {
    if d.bot.mode == SIMULATION {
      assert FilledLegs([], fate) == [];
    }
  }

  // ---- Whose step it is -----------------------------------------------------------------------------------

  lemma DeskLifecycle(s: Sys, b: nat)
    requires Orderly(s) && b in s.desks
    ensures b in s.hist && s.hist[b].last == s.desks[b] && Lifecycle(s.desks[b].bot)
  {
    assert DeskOk(b, s.desks, s.hist);
    var d := s.hist[b].first;
    assert HistoryOk(s.hist[b]);
    LifecycleOverRuns(d.bot.user, d.bot.symbol, d.bot.target, d.ledger.initialCapital, s.hist[b].events);
  }

  /** A transition that has read its row holds it, and the row is the bot's. */
  lemma HolderFacts(s: Sys, p: Pid, b: nat)
    requires Orderly(s) && Moving(s, p) && LockedBy(s.locks, b, p)
    ensures b == s.sessions[p].req.bot && HolderOf(s, b) == Some(s.sessions[p])
    ensures LastOf(s, b) == Some(s.sessions[p].row.value.bot) && Lifecycle(s.sessions[p].row.value.bot)
    ensures s.sessions[p].row.value.bot.status == From(s.sessions[p].req.op)
  {
    SessionFacts(s, p);
    assert LockOk(b, s.locks, s.sessions, s.desks, s.hist);
    DeskLifecycle(s, b);
  }

  lemma MoverHoldsItsRow(s: Sys, p: Pid, b: nat)
    requires Orderly(s) && Moving(s, p)
    ensures LockedBy(s.locks, b, p) <==> b == s.sessions[p].req.bot
  {
    SessionFacts(s, p);
    if b in s.locks {
      assert LockOk(b, s.locks, s.sessions, s.desks, s.hist);
    }
  }

  lemma NoLockYet(s: Sys, p: Pid, b: nat)
    requires Orderly(s)
    requires p !in s.sessions || s.sessions[p].phase in {Starting, Claimed} || s.sessions[p].req.PlaceOrder?
    ensures !LockedBy(s.locks, b, p)
  {
    if b in s.locks {
      assert LockOk(b, s.locks, s.sessions, s.desks, s.hist);
    }
  }

  /** Nothing the bot's views depend on has changed. */
  lemma Untouched(s: Sys, t: Sys, b: nat)
    requires Tracks(s, b) && SameExchange(s, t) && HolderOf(t, b) == HolderOf(s, b) && LastOf(t, b) == LastOf(s, b)
    ensures Tracks(t, b)
  {
  }

  lemma StrangerTracks(s: Sys, t: Sys, p: Pid, b: nat)
    requires Tracks(s, b) && Local(s, t, p) && !LockedBy(s.locks, b, p)
    ensures Tracks(t, b)
  {
    Untouched(s, t, b);
  }

  /** The holder moves on; what it is about to write fits. */
  lemma HolderTracks(s: Sys, t: Sys, p: Pid, b: nat)
    requires Tracks(s, b) && Local(s, t, p) && LockedBy(s.locks, b, p)
    requires if t.sessions[p].write.Put? then Fits(b, Known(t.sessions[p].write.desk.bot), s.calls, s.book, s.fate)
             else s.sessions[p].write == NoWrite
    ensures Tracks(t, b)
  {
  }

  // ---- Live transitions ------------------------------------------------------------------------------------

  /** A live transition ends: without an order it is declined or raised, with one it settles on the truth. */
  lemma LiveEndTracks(s: Sys, p: Pid, outcome: Outcome, returned: Option<OrderStatus>, b: nat)
    requires Traded(s, b) && Moving(s, p) && s.sessions[p].row.value.bot.mode == LIVE && s.sessions[p].phase != Finished
    requires if s.sessions[p].call.None? then outcome in {Disabled, Rejected, Outcome.Raised, Malformed}
             else Truthful(outcome, CidOf(s.sessions[p].req), s.fate)
    ensures Tracks(FinishLive(s, p, outcome, returned), b)
  {
    var n, t := s.sessions[p], FinishLive(s, p, outcome, returned);
    if LockedBy(s.locks, b, p) {
      HolderFacts(s, p, b);
      var bot := n.row.value.bot;
      LiveEventSettles(n.row.value, n.req.op, outcome);
      if n.call.None? {
        UnwrittenView(s, p, b);
        NothingSentFits(b, bot, n.req.op, outcome, s.calls, s.book, s.fate);
      } else {
        assert Recalls(n, s.calls);
        SettleFits(s.calls, s.book, s.fate, b, n.call.value, bot, n.req.op, outcome);
      }
      HolderTracks(s, t, p, b);
    } else {
      StrangerTracks(s, t, p, b);
    }
  }

  /** A session that is not finished has written nothing, so the bot looks as committed. */
  lemma UnwrittenView(s: Sys, p: Pid, b: nat)
    requires Orderly(s) && LockedBy(s.locks, b, p) && p in s.sessions && s.sessions[p].phase != Finished
    ensures s.sessions[p].write == NoWrite
    ensures NextView(LastOf(s, b), HolderOf(s, b)) == RowView(LastOf(s, b), HolderOf(s, b))
  {
    SessionFacts(s, p);
  }

  lemma OrderEndTracks(s: Sys, p: Pid, t: Sys, b: nat)
    requires Traded(s, b) && p in s.sessions && s.sessions[p].req.PlaceOrder? && Local(s, t, p)
    ensures Tracks(t, b)
  {
    NoLockYet(s, p, b);
    StrangerTracks(s, t, p, b);
  }

  lemma PhaseTracks(s: Sys, p: Pid, phase: Phase, drafts: map<KeyId, KeyRow>, b: nat)
    requires Traded(s, b) && p in s.sessions && s.sessions[p].phase != Finished
    ensures Tracks(At(s.(drafts := drafts), p, phase), b)
  {
    var t := At(s.(drafts := drafts), p, phase);
    SessionFacts(s, p);
    if LockedBy(s.locks, b, p) {
      HolderTracks(s, t, p, b);
    } else {
      StrangerTracks(s, t, p, b);
    }
  }

  lemma LearnTracks(s: Sys, p: Pid, status: OrderStatus, b: nat)
    requires Traded(s, b) && Awaits(s, p) && Knows(s, p)
    requires status == OrderStatus.FAILED || Reportable(status, CidOf(s.sessions[p].req), s.fate)
    ensures Tracks(Learn(s, p, status), b)
  {
    CallerFacts(s, p);
    var req := s.sessions[p].req;
    if !req.Transition? {
      OrderEndTracks(s, p, FinishOrder(s, p, status), b);
    } else if status in {NEW, PARTIALLY_FILLED} {
      PhaseTracks(s, p, Unsettled, Finalized(s.drafts, InnerId(req, LIVE), OrderReceipt(status)), b);
    } else {
      StatusIsTruthful(status, CidOf(req), s.fate);
      LiveEndTracks(s, p, OutcomeOfStatus(status), Some(status), b);
    }
  }

  lemma SafetyNetTracks(s: Sys, p: Pid, b: nat)
    requires Traded(s, b) && Knows(s, p) && s.sessions[p].phase != Finished
    requires s.sessions[p].req.PlaceOrder? || (Moving(s, p) && s.sessions[p].row.value.bot.mode == LIVE)
    ensures Tracks(SafetyNet(s, p), b)
  {
    if s.sessions[p].req.PlaceOrder? {
      OrderEndTracks(s, p, SafetyNet(s, p), b);
    } else {
      LiveEndTracks(s, p, Outcome.Raised, Some(OrderStatus.FAILED), b);
    }
  }

  // ---- The call ------------------------------------------------------------------------------------------------

  /** The holder calls: from now on its order is under way. */
  lemma HolderPasses(s: Sys, t: Sys, p: Pid, b: nat, bot: Bot, c: Call)
    requires Tracks(s, b) && LockedBy(s.locks, b, p) && p in s.sessions && LastOf(s, b) == Some(bot)
    requires s.sessions[p].call.None? && s.sessions[p].write == NoWrite
    requires bot.mode == LIVE && bot.status in {ACTIVE, PAUSED} && IsFor(c, b) && Legal(c, bot.current)
    requires t.sessions == s.sessions[p := s.sessions[p].(phase := Sent, call := Some(|s.calls|))]
    requires t.locks == s.locks && t.hist == s.hist && t.calls == s.calls + [c] && t.book == s.book && t.fate == s.fate
    ensures Tracks(t, b)
  {
    assert Fits(b, Known(bot), s.calls, s.book, s.fate);
    CallFits(b, bot.current, s.calls, s.book, s.fate, c);
    assert RowView(LastOf(t, b), HolderOf(t, b)) == InFlight(bot.current, |s.calls|);
  }

  lemma StrangerPasses(s: Sys, t: Sys, b: nat, c: Call)
    requires Tracks(s, b) && !IsFor(c, b) && HolderOf(t, b) == HolderOf(s, b) && LastOf(t, b) == LastOf(s, b)
    requires t.calls == s.calls + [c] && t.book == s.book && t.fate == s.fate
    ensures Tracks(t, b)
  {
    CallFitsOthers(b, RowView(LastOf(s, b), HolderOf(s, b)), s.calls, s.book, s.fate, c);
    CallFitsOthers(b, NextView(LastOf(s, b), HolderOf(s, b)), s.calls, s.book, s.fate, c);
  }

  lemma PassTracks(s: Sys, p: Pid, b: nat, t: Sys)
    requires Traded(s, b) && Enabled(s, Gate(p, Pass)) && t == ApplyGate(s, p, Pass)
    ensures Tracks(t, b)
  {
    var n, c := s.sessions[p], CallOf(s.sessions[p], |s.calls|);
    if n.req.Transition? && n.req.bot == b {
      MoverHoldsItsRow(s, p, b);
      HolderFacts(s, p, b);
      CallerIsFirst(s, p, CidOf(n.req));
      UnwrittenView(s, p, b);
      PassLegal(n.row.value.bot, n.req.op);
      HolderPasses(s, t, p, b, n.row.value.bot, c);
    } else {
      NotItsHolder(s, p, b);
      StrangerPasses(s, t, b, c);
    }
  }

  lemma NotItsHolder(s: Sys, p: Pid, b: nat)
    requires Orderly(s) && Enabled(s, Gate(p, Pass)) && (s.sessions[p].req.Transition? ==> s.sessions[p].req.bot != b)
    ensures !LockedBy(s.locks, b, p) && !IsFor(CallOf(s.sessions[p], |s.calls|), b)
  {
    if s.sessions[p].req.Transition? {
      MoverHoldsItsRow(s, p, b);
    } else {
      NoLockYet(s, p, b);
    }
  }

  lemma GateTracks(s: Sys, p: Pid, verdict: GateVerdict, b: nat)
    requires Traded(s, b) && Enabled(s, Gate(p, verdict))
    ensures Tracks(ApplyGate(s, p, verdict), b)
  {
    SessionFacts(s, p);
    if verdict.Pass? {
      PassTracks(s, p, b, ApplyGate(s, p, verdict));
    } else if verdict.Break? {
      SafetyNetTracks(s, p, b);
    } else if s.sessions[p].req.Transition? {
      LiveEndTracks(s, p, if verdict.Off? then Disabled else Rejected, Some(OrderStatus.REJECTED), b);
    } else {
      OrderEndTracks(s, p, ApplyGate(s, p, verdict), b);
    }
  }

  lemma HearingTracks(s: Sys, step: Step, b: nat)
    requires Traded(s, b) && Enabled(s, step) && (step.Reply? || step.Confirm? || step.Reconcile?)
    ensures Tracks(Apply(s, step), b)
  {
    var p := step.p;
    CallerFacts(s, p);
    if step.Reconcile? {
      LiveEndTracks(s, p, if step.heard.Ack? then OutcomeOfStatus(step.heard.status)
                          else if step.heard.Failure? then Unresolved else Malformed, None, b);
    } else if step.heard.Garbled? {
      SafetyNetTracks(s, p, b);
    } else if step.Confirm? {
      LearnTracks(s, p, if step.heard.Ack? then step.heard.status else OrderStatus.FAILED, b);
    } else if step.heard.Ack? {
      LearnTracks(s, p, step.heard.status, b);
    } else {
      PhaseTracks(s, p, Doubtful, s.drafts, b);
    }
  }

  // ---- The exchange -----------------------------------------------------------------------------------------------

  lemma AcceptTracks(s: Sys, call: nat, f: Fate, b: nat)
    requires Traded(s, b) && Enabled(s, Accept(call, f))
    ensures Tracks(Apply(s, Accept(call, f)), b)
  {
    AcceptFits(b, RowView(LastOf(s, b), HolderOf(s, b)), s.calls, s.book, s.fate, call, f);
    AcceptFits(b, NextView(LastOf(s, b), HolderOf(s, b)), s.calls, s.book, s.fate, call, f);
  }

  lemma EvolveTracks(s: Sys, cid: KeyId, f: Fate, b: nat)
    requires Traded(s, b) && Enabled(s, Evolve(cid, f))
    ensures Tracks(Apply(s, Evolve(cid, f)), b)
  {
    FateMoves(b, RowView(LastOf(s, b), HolderOf(s, b)), s.calls, s.book, s.fate, s.fate[cid := f]);
    FateMoves(b, NextView(LastOf(s, b), HolderOf(s, b)), s.calls, s.book, s.fate, s.fate[cid := f]);
  }

  // ---- The remaining steps -----------------------------------------------------------------------------------

  lemma EarlyStepTracks(s: Sys, step: Step, b: nat)
    requires Traded(s, b) && Enabled(s, step) && (step.Begin? || step.Reserve?)
    ensures Tracks(Apply(s, step), b)
  {
    NoLockYet(s, step.p, b);
    Untouched(s, Apply(s, step), b);
  }

  lemma ReserveInnerShape(s: Sys, p: Pid)
    requires Orderly(s) && Enabled(s, ReserveInner(p))
    ensures var t, n := ApplyReserveInner(s, p), s.sessions[p];
            && Uncommitted(s, t) && t.locks == s.locks && t.sessions == s.sessions[p := n.(phase := Keyed)]
  {
    InnerKeyIsFresh(s, p, s.sessions[p].row.value.bot.mode);
  }

  /** A session that has not called moves on without writing: its bot looks the same. */
  lemma HolderWaits(s: Sys, t: Sys, p: Pid, b: nat)
    requires Tracks(s, b) && SameExchange(s, t) && t.locks == s.locks && t.hist == s.hist && p in s.sessions
    requires p in t.sessions
    requires t.sessions == s.sessions[p := t.sessions[p]] && t.sessions[p].call == s.sessions[p].call
    requires s.sessions[p].write == NoWrite && t.sessions[p].write == NoWrite
    ensures Tracks(t, b)
  {
    if LockedBy(s.locks, b, p) {
      assert RowView(LastOf(t, b), HolderOf(t, b)) == RowView(LastOf(s, b), HolderOf(s, b));
    } else {
      Untouched(s, t, b);
    }
  }

  lemma ReserveInnerTracks(s: Sys, p: Pid, b: nat)
    requires Traded(s, b) && Enabled(s, ReserveInner(p))
    ensures Tracks(ApplyReserveInner(s, p), b)
  {
    ReserveInnerShape(s, p);
    SessionFacts(s, p);
    HolderWaits(s, ApplyReserveInner(s, p), p, b);
  }

  lemma SimulateTracks(s: Sys, p: Pid, market: SimulationLedger.Market, b: nat)
    requires Traded(s, b) && Enabled(s, Simulate(p, market))
    ensures Tracks(ApplySimulate(s, p, market), b)
  {
    var n, t := s.sessions[p], ApplySimulate(s, p, market);
    if LockedBy(s.locks, b, p) {
      HolderFacts(s, p, b);
      SessionFacts(s, p);
      SimulationStaysOff(n.row.value, n.req.op, market);
      HolderTracks(s, t, p, b);
    } else {
      StrangerTracks(s, t, p, b);
    }
  }

  /** What a session becomes when it has locked and read its bot's row. */
  lemma LoadShape(s: Sys, p: Pid, t: Sys)
    requires Enabled(s, Load(p)) && (s.sessions[p].req.Open? || Finds(s, s.sessions[p].req)) && t == ApplyLoad(s, p)
    ensures var n, b := s.sessions[p], s.sessions[p].req.bot;
            && Uncommitted(s, t) && t.owners == s.owners && t.locks == s.locks[b := p] && b !in s.locks
            && p in t.sessions && t.sessions == s.sessions[p := t.sessions[p]]
            && t.sessions[p].req == n.req && t.sessions[p].call == n.call
            && (t.sessions[p].write.Put? ==>
                  && n.req.Manage? && b in s.desks && t.sessions[p].write.event == n.req.event
                  && t.sessions[p].write.desk == BotMachine.Step(s.desks[b], n.req.event))
            && (t.sessions[p].write.Create? ==> n.req.Open?)
  {
    var n := s.sessions[p];
    var locked := s.(locks := s.locks[n.req.bot := p]);
    if n.req.Open? {
      var bot := NewDesk(n.req.user, n.req.symbol, n.req.target, n.req.capital).bot;
      LandShape(locked, p, Ending(Create, BotReceipt(Some(bot), Now(PAUSED))), t);
    } else {
      LandShape(locked, p, LandingOf(n.req, s.desks[n.req.bot]), t);
    }
  }

  /** A row is locked for the first time: only an event that is about to be written shows. */
  lemma NewHolderTracks(s: Sys, t: Sys, p: Pid, b: nat)
    requires Tracks(s, b) && SameExchange(s, t) && t.hist == s.hist && b !in s.locks && t.locks == s.locks[b := p]
    requires p in t.sessions && t.sessions[p].call.None?
    requires t.sessions[p].write.Put? ==> Fits(b, Known(t.sessions[p].write.desk.bot), s.calls, s.book, s.fate)
    ensures Tracks(t, b)
  {
  }

  lemma ManagedTracks(s: Sys, b: nat, event: Event)
    requires Orderly(s) && Tracks(s, b) && b in s.desks && b !in s.locks
    requires event.UpdateTarget? || event.Stop? || event.GoLive?
    ensures Fits(b, Known(BotMachine.Step(s.desks[b], event).bot), s.calls, s.book, s.fate)
  {
    DeskLifecycle(s, b);
    ManagedFits(b, s.desks[b], event, s.calls, s.book, s.fate);
  }

  lemma NothingFoundTracks(s: Sys, p: Pid, b: nat, l: Landing)
    requires Tracks(s, b) && p in s.sessions && !LockedBy(s.locks, b, p)
    ensures Tracks(Land(s, p, l), b)
  {
    var t := Land(s, p, l);
    LandShape(s, p, l, t);
    Untouched(s, t, b);
  }

  lemma LoadSparesOthers(s: Sys, p: Pid, b: nat, t: Sys)
    requires Enabled(s, Load(p)) && !LockedBy(s.locks, b, p) && b != s.sessions[p].req.bot && t == ApplyLoad(s, p)
    requires s.sessions[p].req.Open? || Finds(s, s.sessions[p].req)
    ensures HolderOf(t, b) == HolderOf(s, b) && Uncommitted(s, t)
  {
    LoadShape(s, p, t);
  }

  lemma LoadTracks(s: Sys, p: Pid, b: nat, t: Sys)
    requires Traded(s, b) && Enabled(s, Load(p)) && t == ApplyLoad(s, p)
    ensures Tracks(t, b)
  {
    var req := s.sessions[p].req;
    NoLockYet(s, p, b);
    if !req.Open? && !Finds(s, req) {
      NothingFoundTracks(s, p, b, Ending(NoWrite, BotReceipt(None, Declined)));
    } else {
      if b != req.bot {
        LoadSparesOthers(s, p, b, t);
        Untouched(s, t, b);
      } else {
        LoadShape(s, p, t);
        SessionFacts(s, p);
        if t.sessions[p].write.Put? {
          ManagedTracks(s, b, req.event);
        }
        NewHolderTracks(s, t, p, b);
      }
    }
  }

  // ---- Ending a session ----------------------------------------------------------------------------------------

  lemma CommitShape(s: Sys, p: Pid)
    requires Enabled(s, Commit(p))
    ensures var t := ApplyCommit(s, p);
            && t.keys == s.keys + Kept(s, p) && t.owners == OthersKeys(s.owners, p)
            && t.locks == OthersLocks(s.locks, p) && t.sessions == s.sessions - {p}
  {
  }

  /** A commit changes no row but the one its session has locked. */
  lemma CommitSparesOthers(s: Sys, p: Pid, b: nat)
    requires Enabled(s, Commit(p)) && WriteOk(p, s.sessions[p], s.locks, s.desks, s.hist)
    requires !LockedBy(s.locks, b, p)
    ensures var t := ApplyCommit(s, p);
            && (b in t.hist <==> b in s.hist) && (b in t.hist ==> t.hist[b] == s.hist[b])
            && (b in t.desks <==> b in s.desks) && (b in t.desks ==> t.desks[b] == s.desks[b])
  {
  }

  lemma OthersHold(s: Sys, p: Pid, b: nat, locks: Locks, sessions: Sessions)
    requires !LockedBy(s.locks, b, p) && locks == OthersLocks(s.locks, p) && sessions == s.sessions - {p}
    ensures (b in locks <==> b in s.locks) && (b in locks ==> locks[b] == s.locks[b] != p)
    ensures b in locks && s.locks[b] in s.sessions ==>
              s.locks[b] in sessions && sessions[s.locks[b]] == s.sessions[s.locks[b]]
  {
  }

  /** The row a session has locked becomes what it wrote. */
  lemma CommittedLast(s: Sys, p: Pid, b: nat, t: Sys)
    requires Orderly(s) && Enabled(s, Commit(p)) && LockedBy(s.locks, b, p) && t == ApplyCommit(s, p)
    ensures b == s.sessions[p].req.bot && !s.sessions[p].req.PlaceOrder?
    ensures var write := s.sessions[p].write;
            match write
            case Put(_, desk) => b in s.hist && LastOf(t, b) == Some(desk.bot)
            case Create => b !in s.hist && LastOf(t, b).Some? && LastOf(t, b).value.mode == SIMULATION
            case _ => LastOf(t, b) == LastOf(s, b)
  {
    SessionFacts(s, p);
    assert LockOk(b, s.locks, s.sessions, s.desks, s.hist);
    if s.sessions[p].write.Put? {
      assert DeskOk(b, s.desks, s.hist);
    }
  }

  /** A session that ends without a row to write has not called for a bot. */
  lemma CallerWrites(s: Sys, p: Pid)
    requires Orderly(s) && In(s, p, Finished) && !s.sessions[p].req.PlaceOrder? && s.sessions[p].call.Some?
    ensures s.sessions[p].write.Put?
  {
    SessionFacts(s, p);
  }

  lemma CommittedTracks(s: Sys, t: Sys, p: Pid, b: nat)
    requires Tracks(s, b) && SameExchange(s, t) && LockedBy(s.locks, b, p) && p in s.sessions && b !in t.locks
    requires s.sessions[p].call.Some? ==> s.sessions[p].write.Put?
    requires var write := s.sessions[p].write;
             match write
             case Put(_, desk) => b in s.hist && LastOf(t, b) == Some(desk.bot)
             case Create => b !in s.hist && LastOf(t, b).Some? && LastOf(t, b).value.mode == SIMULATION
             case _ => LastOf(t, b) == LastOf(s, b)
    ensures Tracks(t, b)
  {
  }

  lemma CommitTracks(s: Sys, p: Pid, b: nat, t: Sys)
    requires Traded(s, b) && Enabled(s, Commit(p)) && t == ApplyCommit(s, p)
    ensures Tracks(t, b)
  {
    CommitShape(s, p);
    if LockedBy(s.locks, b, p) {
      CommittedLast(s, p, b, t);
      if s.sessions[p].call.Some? {
        CallerWrites(s, p);
      }
      CommittedTracks(s, t, p, b);
    } else {
      SessionFacts(s, p);
      CommitSparesOthers(s, p, b);
      OthersHold(s, p, b, t.locks, t.sessions);
      Untouched(s, t, b);
    }
  }

  /** A rollback leaves the bot as it was committed. */
  lemma CrashTracks(s: Sys, p: Pid, b: nat, t: Sys)
    requires Traded(s, b) && Enabled(s, Crash(p)) && t == Leave(s, p)
    requires LockedBy(s.locks, b, p) ==> s.sessions[p].call.None?
    ensures Tracks(t, b)
  {
    if LockedBy(s.locks, b, p) {
      assert HolderOf(t, b) == None;
    } else {
      OthersHold(s, p, b, t.locks, t.sessions);
      Untouched(s, t, b);
    }
  }

  /** A holder of the bot's row that has called, has called for this bot. */
  lemma HolderCallsForItsBot(s: Sys, p: Pid, b: nat)
    requires Orderly(s) && LockedBy(s.locks, b, p) && p in s.sessions && s.sessions[p].call.Some?
    ensures IsIdOf(CidOf(s.sessions[p].req), b)
  {
    SessionFacts(s, p);
    assert LockOk(b, s.locks, s.sessions, s.desks, s.hist);
  }

  // ---- Every step, every run -------------------------------------------------------------------------------------

  lemma ActingTracks(s: Sys, step: Step, b: nat)
    requires Traded(s, b) && Enabled(s, step)
    requires step.Decline? || step.ReserveInner? || step.Simulate? || step.Gate? || step.Reply? || step.Confirm?
             || step.Reconcile?
    ensures Tracks(Apply(s, step), b)
  {
    match step
    case Decline(p, garbled) =>
      SessionFacts(s, p);
      LiveEndTracks(s, p, if garbled then Malformed else Rejected, None, b);
    case ReserveInner(p) => ReserveInnerTracks(s, p, b);
    case Simulate(p, market) => SimulateTracks(s, p, market, b);
    case Gate(p, verdict) => GateTracks(s, p, verdict, b);
    case _ => HearingTracks(s, step, b);
  }

  lemma RollbackTracks(s: Sys, p: Pid, b: nat)
    requires Traded(s, b) && Enabled(s, Crash(p))
    requires forall id :: IsIdOf(id, b) ==> !LosesCall(s, Crash(p), id)
    ensures Tracks(Leave(s, p), b)
  {
    if LockedBy(s.locks, b, p) && s.sessions[p].call.Some? {
      HolderCallsForItsBot(s, p, b);
    }
    CrashTracks(s, p, b, Leave(s, p));
  }

  lemma StepTracks(s: Sys, step: Step, b: nat)
    requires Traded(s, b) && Enabled(s, step)
    requires forall id :: IsIdOf(id, b) ==> !LosesCall(s, step, id)
    ensures Tracks(Apply(s, step), b)
  {
    match step
    case Begin(_, _) => EarlyStepTracks(s, step, b);
    case Reserve(_) => EarlyStepTracks(s, step, b);
    case Load(p) => LoadTracks(s, p, b, ApplyLoad(s, p));
    case Accept(call, fate) => AcceptTracks(s, call, fate, b);
    case Evolve(cid, fate) => EvolveTracks(s, cid, fate, b);
    case Commit(p) => CommitTracks(s, p, b, ApplyCommit(s, p));
    case Crash(p) => RollbackTracks(s, p, b);
    case _ => ActingTracks(s, step, b);
  }

  lemma RunsCallDistinctly(steps: seq<Step>, b: nat)
    requires KeepsCallsOf(steps, b)
    ensures DistinctFor(Reached(steps).calls, b)
  {
    var calls := Reached(steps).calls;
    forall i, j | 0 <= i < j < |calls| && IsFor(calls[i], b) ensures calls[i].cid != calls[j].cid {
      RunsCallOnce(steps, calls[i].cid);
    }
  }

  lemma KeepsCallsOfFront(steps: seq<Step>, b: nat)
    requires steps != [] && KeepsCallsOf(steps, b)
    ensures var front := steps[..|steps| - 1];
            KeepsCallsOf(front, b) && forall id :: IsIdOf(id, b) ==> !LosesCall(Reached(front), steps[|steps| - 1], id)
  {
    var front := steps[..|steps| - 1];
    forall id | IsIdOf(id, b) ensures KeepsCalls(front, id) && !LosesCall(Reached(front), steps[|steps| - 1], id) {
      KeepsCallsFront(steps, id);
    }
  }

  /** The invariant that ties a bot to the orders the exchange has for it: it survives every
      rollback except one that comes after a call for this bot. */
  lemma {:induction false} RunsTrade(steps: seq<Step>, b: nat)
    requires KeepsCallsOf(steps, b)
    ensures Traded(Reached(steps), b)
  {
    RunsAreRecorded(steps);
    RunsCallDistinctly(steps, b);
    if steps != [] {
      var front, step := steps[..|steps| - 1], steps[|steps| - 1];
      KeepsCallsOfFront(steps, b);
      RunsTrade(front, b);
      if Enabled(Reached(front), step) {
        StepTracks(Reached(front), step, b);
      }
    }
  }
}
