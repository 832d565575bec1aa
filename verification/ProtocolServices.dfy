/** Every transition the services can perform is a run of the interleaving model: whatever the
    replies are, one session alone commits the row, the answer and the call that the
    imperative `BotService.Transition` promises. */
module ProtocolServices {
  import opened Common
  import opened Idempotency
  import opened Reconciliation
  import opened BotMachine
  import opened Requests
  import opened Protocol
  import opened ProtocolSafety
  import opened ProtocolCalls
  import opened ProtocolTrading
  import OrderService
  import opened SimulationOrderService
  import BotService
  import SimulationLedger

  type Weather = BotService.Weather

  // ---- One session in the middle of its transition ------------------------------------------------

  /** Rows or claims with the client's key and, once it is claimed, the derived one. */
  function WithKeys(rows: map<KeyId, KeyRow>, req: Request, mode: Mode, outer: KeyRow,
                    derived: Option<KeyRow>): map<KeyId, KeyRow>
    requires req.Transition?
  {
    BotService.WithRow(rows[OuterId(req) := outer], InnerId(req, mode), derived)
  }

  function WithOwner(owners: Owners, req: Request, mode: Mode, p: Pid, inner: bool): Owners
    requires req.Transition?
  {
    if inner then owners[OuterId(req) := p][InnerId(req, mode) := p] else owners[OuterId(req) := p]
  }

  function Unanswered(req: Request): KeyRow
    requires req.Transition?
  {
    Row(BotPayload(req.bot), None)
  }

  /** What the derived key holds once it is claimed. */
  function DerivedRow(s: Sys, req: Request, response: Option<Receipt>): Option<KeyRow>
    requires req.Transition? && req.bot in s.desks
  {
    Some(Row(InnerPayload(req.op, req.bot, s.desks[req.bot].bot), response))
  }

  /** The session that started in `s` and holds the row it read there. */
  function Under(s: Sys, req: Request, phase: Phase): Session
    requires req.Transition? && req.bot in s.desks
  {
    Session(req, phase, Some(s.desks[req.bot]), if phase in {Sent, Doubtful, Unsettled} then Some(|s.calls|) else None,
            NoWrite, Fresh)
  }

  /** `t` is `s` plus a session that holds its bot's row and its keys, all uncommitted. */
  ghost predicate Mid(s: Sys, t: Sys, p: Pid, req: Request, phase: Phase, derived: Option<KeyRow>)
    requires req.Transition? && req.bot in s.desks
  {
    var mode := s.desks[req.bot].bot.mode;
    && t.keys == s.keys && t.desks == s.desks && t.hist == s.hist && t.locks == s.locks[req.bot := p]
    && t.sessions == s.sessions[p := Under(s, req, phase)]
    && t.owners == WithOwner(s.owners, req, mode, p, derived.Some?)
    && t.drafts == WithKeys(s.drafts, req, mode, Unanswered(req), derived)
  }

  /** The bot can be paused or resumed right now, and the request is new. */
  ghost predicate Ready(s: Sys, p: Pid, req: Request) {
    && Orderly(s) && req.Transition? && p !in s.sessions
    && req.bot in s.desks && req.bot !in s.locks && req.bot in s.hist
    && s.desks[req.bot].bot.user == req.user && s.desks[req.bot].bot.status == From(req.op)
    && OuterId(req) !in s.keys && OuterId(req) !in s.owners
  }

  lemma DerivedNeedsOrigin(s: Sys, id: KeyId)
    requires Orderly(s) && id.key.Inner?
    ensures id in s.keys ==> OuterOf(id) in s.keys
    ensures id in s.owners ==> OuterOf(id) in s.owners
  {
    if id in s.keys {
      assert KeyOk(id, s.keys);
    }
    if id in s.owners {
      assert DraftOk(id, s.owners, s.keys, s.sessions);
    }
  }

  lemma DerivedKeyIsFree(s: Sys, p: Pid, req: Request, mode: Mode)
    requires Ready(s, p, req)
    ensures InnerId(req, mode) !in s.keys && InnerId(req, mode) !in s.owners
    ensures OuterId(req) !in s.drafts.Keys && InnerId(req, mode) !in s.drafts.Keys
  {
    DerivedNeedsOrigin(s, InnerId(req, mode));
    assert OuterOf(InnerId(req, mode)) == OuterId(req);
  }

  /** A new request whose key is free. */
  ghost predicate Novel(s: Sys, p: Pid, req: Request) {
    && Orderly(s) && WellTyped(req) && p !in s.sessions && OuterId(req) !in s.keys && OuterId(req) !in s.owners
  }

  /** The state once the request has claimed its key. */
  function Claiming(s: Sys, p: Pid, req: Request): Sys {
    s.(sessions := s.sessions[p := SessionFor(req).(phase := Claimed)], owners := s.owners[OuterId(req) := p],
       drafts := s.drafts[OuterId(req) := Row(PayloadOf(req), None)])
  }

  lemma NovelClaims(s: Sys, p: Pid, req: Request)
    requires Novel(s, p, req)
    ensures Next(Next(s, Begin(p, req)), Reserve(p)) == Claiming(s, p, req)
  {
    var begun := Next(s, Begin(p, req));
    assert begun == s.(sessions := s.sessions[p := SessionFor(req)]);
    assert Next(begun, Reserve(p)).sessions == s.sessions[p := SessionFor(req).(phase := Claimed)];
  }

  /** What the claimed session reads, and where that leaves it. */
  lemma LoadsClaimed(s: Sys, p: Pid, req: Request, c: Sys)
    requires !req.PlaceOrder? && !req.Open? && c == Claiming(s, p, req) && (Finds(s, req) ==> req.bot !in s.locks)
    ensures Enabled(c, Load(p))
    ensures ApplyLoad(c, p)
         == if Finds(s, req) then Land(c.(locks := s.locks[req.bot := p]), p, LandingOf(req, s.desks[req.bot]))
            else Land(c.(locks := s.locks), p, Ending(NoWrite, BotReceipt(None, Declined)))
  {
    assert In(c, p, Claimed) && c.(locks := s.locks) == c;
  }

  lemma NewcomerHoldsNothingYet(s: Sys, p: Pid)
    requires Orderly(s) && p !in s.sessions
    ensures forall id :: id in s.owners ==> s.owners[id] != p
    ensures forall b :: b in s.locks ==> s.locks[b] != p
  {
    forall id | id in s.owners ensures s.owners[id] != p {
      assert DraftOk(id, s.owners, s.keys, s.sessions);
    }
    forall b | b in s.locks ensures s.locks[b] != p {
      assert LockOk(b, s.locks, s.sessions, s.desks, s.hist);
    }
  }

  /** What a ready transition finds: its row free, and both its keys unused. */
  ghost predicate Room(s: Sys, p: Pid, req: Request) {
    && req.Transition? && req.bot in s.desks && req.bot !in s.locks && req.bot in s.hist
    && s.desks[req.bot].bot.status == From(req.op) && s.owners.Keys == s.drafts.Keys
    && (forall id :: id in {OuterId(req), InnerId(req, LIVE), InnerId(req, SIMULATION)} ==>
          id !in s.keys && id !in s.owners && id !in s.drafts)
    && (forall id :: id in s.owners ==> s.owners[id] != p) && (forall b :: b in s.locks ==> s.locks[b] != p)
    && p !in s.sessions
  }

  lemma ReadyHasRoom(s: Sys, p: Pid, req: Request)
    requires Ready(s, p, req)
    ensures Room(s, p, req)
  {
    DerivedKeyIsFree(s, p, req, LIVE);
    DerivedKeyIsFree(s, p, req, SIMULATION);
    NewcomerHoldsNothingYet(s, p);
    assert OuterId(req) !in s.owners.Keys;
  }

  /** Begin and claim the client's key. */
  lemma ClaimsOuter(s: Sys, p: Pid, req: Request, t: Sys)
    requires Ready(s, p, req) && t == Next(Next(s, Begin(p, req)), Reserve(p))
    ensures t == Claiming(s, p, req)
  {
    NovelClaims(s, p, req);
  }

  /** ... and lock the row. */
  lemma LocksRow(s: Sys, p: Pid, req: Request, c: Sys, t: Sys)
    requires Ready(s, p, req) && c == Claiming(s, p, req) && t == Next(c, Load(p))
    ensures Mid(s, t, p, req, Holding, None) && SameExchange(c, t)
  {
    var l := Landing(Holding, Some(s.desks[req.bot]), NoWrite, None);
    LoadsClaimed(s, p, req, c);
    assert LandingOf(req, s.desks[req.bot]) == l;
    assert t.sessions == s.sessions[p := Under(s, req, Holding)];
  }

  lemma ClaimsInner(s: Sys, p: Pid, req: Request, t: Sys, u: Sys)
    requires Room(s, p, req) && Mid(s, t, p, req, Holding, None) && u == Next(t, ReserveInner(p))
    ensures Mid(s, u, p, req, Keyed, DerivedRow(s, req, None)) && SameExchange(t, u)
  {
    var bot := s.desks[req.bot].bot;
    var inner := InnerId(req, bot.mode);
    assert In(t, p, Holding) && Moving(t, p) && inner !in t.owners;
    assert u == At(Claim(t, p, inner, InnerPayload(req.op, req.bot, bot)), p, Keyed);
    assert u.sessions == s.sessions[p := Under(s, req, Keyed)];
  }

  // ---- The end of the session ---------------------------------------------------------------------------

  /** `u` is `s` after the transition: the row, the two keys, and nothing else of the database. */
  ghost predicate Ended(s: Sys, u: Sys, req: Request, event: Event, reply: Option<BotReply>, derived: Option<KeyRow>)
    requires req.Transition? && req.bot in s.desks
  {
    var desk := BotMachine.Step(s.desks[req.bot], event);
    && u.desks == s.desks[req.bot := desk]
    && u.keys == BotService.WithRow(s.keys, InnerId(req, s.desks[req.bot].bot.mode), derived)
                   [OuterId(req) := AnswerOf(req, desk.bot, reply)]
    && u.sessions == s.sessions && u.locks == s.locks && u.owners == s.owners && u.drafts == s.drafts
  }

  function AnswerOf(req: Request, bot: Bot, reply: Option<BotReply>): KeyRow
    requires req.Transition?
  {
    Row(BotPayload(req.bot), if reply.Some? then Some(BotReceipt(Some(bot), reply.value)) else None)
  }

  /** `t` is `s` plus a finished session that wrote this event and answered its keys like this. */
  ghost predicate Done(s: Sys, t: Sys, p: Pid, req: Request, event: Event, reply: Option<BotReply>,
                       derived: Option<KeyRow>)
    requires req.Transition? && req.bot in s.desks
  {
    var mode, desk := s.desks[req.bot].bot.mode, BotMachine.Step(s.desks[req.bot], event);
    && t.keys == s.keys && t.desks == s.desks && t.hist == s.hist && t.locks == s.locks[req.bot := p]
    && p in t.sessions && t.sessions == s.sessions[p := t.sessions[p]]
    && t.sessions[p].req == req && t.sessions[p].phase == Finished && t.sessions[p].write == Put(event, desk)
    && t.owners == WithOwner(s.owners, req, mode, p, derived.Some?)
    && t.drafts == WithKeys(s.drafts, req, mode, AnswerOf(req, desk.bot, reply), derived)
  }

  lemma OwnKeysAreFreed(owners: Owners, p: Pid, a: KeyId, b: KeyId)
    requires a !in owners && b !in owners && forall id :: id in owners ==> owners[id] != p
    ensures OthersKeys(owners[a := p], p) == owners && OthersKeys(owners[a := p][b := p], p) == owners
  {
  }

  lemma OwnLockIsFreed(locks: map<nat, Pid>, p: Pid, b: nat)
    requires b !in locks && forall c :: c in locks ==> locks[c] != p
    ensures OthersLocks(locks[b := p], p) == locks
  {
  }

  lemma CommitFreesTheRest(s: Sys, p: Pid, req: Request, t: Sys, event: Event, reply: Option<BotReply>,
                           derived: Option<KeyRow>)
    requires Room(s, p, req) && Done(s, t, p, req, event, reply, derived)
    ensures OthersKeys(t.owners, p) == s.owners && OthersLocks(t.locks, p) == s.locks && t.sessions - {p} == s.sessions
  {
    var mode := s.desks[req.bot].bot.mode;
    OwnKeysAreFreed(s.owners, p, OuterId(req), InnerId(req, mode));
    OwnLockIsFreed(s.locks, p, req.bot);
  }

  /** Of all claimed rows the session keeps its own and leaves the others'. */
  lemma OwnRowsAreKept(s: Sys, t: Sys, p: Pid, req: Request, mode: Mode, outer: KeyRow, derived: Option<KeyRow>)
    requires req.Transition? && s.owners.Keys == s.drafts.Keys && OuterId(req) !in s.owners
    requires InnerId(req, mode) !in s.owners
    requires forall id :: id in s.owners ==> s.owners[id] != p
    requires t.owners == WithOwner(s.owners, req, mode, p, derived.Some?)
    requires t.drafts == WithKeys(s.drafts, req, mode, outer, derived)
    ensures Kept(t, p) == WithKeys(map[], req, mode, outer, derived)
    ensures Leave(t, p).drafts == s.drafts
  {
    assert forall id :: id in s.drafts ==> id in s.owners.Keys && !Owns(t, p, id);
    assert Owns(t, p, OuterId(req));
    assert derived.Some? ==> Owns(t, p, InnerId(req, mode));
  }

  lemma CommitAddsKeys(keys: map<KeyId, KeyRow>, req: Request, mode: Mode, outer: KeyRow, derived: Option<KeyRow>)
    requires req.Transition?
    ensures keys + WithKeys(map[], req, mode, outer, derived)
         == BotService.WithRow(keys, InnerId(req, mode), derived)[OuterId(req) := outer]
  {
    assert OuterId(req) != InnerId(req, mode);
  }

  /** A finished session commits exactly its own two keys and its row. */
  lemma Commits(s: Sys, p: Pid, req: Request, t: Sys, event: Event, reply: Option<BotReply>, derived: Option<KeyRow>,
                u: Sys)
    requires Room(s, p, req) && Done(s, t, p, req, event, reply, derived) && u == Next(t, Commit(p))
    ensures Ended(s, u, req, event, reply, derived) && SameExchange(t, u)
  {
    var mode, bot := s.desks[req.bot].bot.mode, BotMachine.Step(s.desks[req.bot], event).bot;
    assert In(t, p, Finished);
    CommitShape(t, p);
    OwnRowsAreKept(s, t, p, req, mode, AnswerOf(req, bot, reply), derived);
    CommitAddsKeys(s.keys, req, mode, AnswerOf(req, bot, reply), derived);
    CommitFreesTheRest(s, p, req, t, event, reply, derived);
    assert u.desks == RowsAfter(t.sessions[p], t.desks, t.hist).desks;
  }

  function ReplyStored(bot: Bot, outcome: Outcome): Option<BotReply> {
    if outcome.Malformed? then None else Some(ReplyOf(bot, outcome))
  }

  /** What the derived key holds after `create_order` has returned, or not. */
  function Returned(derived: Option<KeyRow>, returned: Option<OrderStatus>): Option<KeyRow> {
    if derived.Some? && returned.Some? then Some(derived.value.(response := Some(OrderReceipt(returned.value))))
        else derived
  }

  lemma LiveAnswers(drafts: map<KeyId, KeyRow>, req: Request, derived: Option<KeyRow>, bot: Bot, outcome: Outcome,
                    returned: Option<OrderStatus>)
    requires req.Transition? && InnerId(req, LIVE) !in drafts
    ensures LiveDrafts(WithKeys(drafts, req, LIVE, Unanswered(req), derived), req, bot, outcome, returned)
         == WithKeys(drafts, req, LIVE, AnswerOf(req, bot, ReplyStored(bot, outcome)), Returned(derived, returned))
  {
    assert OuterId(req) != InnerId(req, LIVE);
  }

  /** Ending a live transition and committing it. */
  lemma EndsLive(s: Sys, p: Pid, req: Request, t: Sys, phase: Phase, derived: Option<KeyRow>, outcome: Outcome,
                 returned: Option<OrderStatus>, f: Sys, u: Sys)
    requires Room(s, p, req) && s.desks[req.bot].bot.mode == LIVE && Mid(s, t, p, req, phase, derived)
    requires f == FinishLive(t, p, outcome, returned) && u == Next(f, Commit(p))
    ensures Settled(s, u, req, outcome, Returned(derived, returned))
    ensures SameExchange(t, u)
  {
    var event := LiveTransition(req.op, outcome);
    var bot := BotMachine.Step(s.desks[req.bot], event).bot;
    assert f.drafts == LiveDrafts(t.drafts, req, bot, outcome, returned);
    LiveAnswers(s.drafts, req, derived, bot, outcome, returned);
    assert Done(s, f, p, req, event, ReplyStored(bot, outcome), Returned(derived, returned));
    Commits(s, p, req, f, event, ReplyStored(bot, outcome), Returned(derived, returned), u);
  }

  // ---- Simulated transitions ---------------------------------------------------------------------------------

  lemma SimulatedAnswers(drafts: map<KeyId, KeyRow>, req: Request, payload: Payload, raised: bool, status: OrderStatus,
                         bot: Bot, reply: BotReply)
    requires req.Transition?
    ensures var rows := WithKeys(drafts, req, SIMULATION, Unanswered(req), Some(Row(payload, None)));
            var inner := if raised then rows else Finalized(rows, InnerId(req, SIMULATION), OrderReceipt(status));
            Finalized(inner, OuterId(req), BotReceipt(Some(bot), reply))
            == WithKeys(drafts, req, SIMULATION, AnswerOf(req, bot, Some(reply)),
                        Some(Row(payload, if raised then None else Some(OrderReceipt(status)))))
  {
    assert OuterId(req) != InnerId(req, SIMULATION);
  }

  lemma SimulatedReceipt(a: SimulationLedger.Attempt)
    ensures ReceiptOf(a) == if OutcomeOf(a).Raised? then None else Some(OrderReceipt(SimulatedStatus(OutcomeOf(a))))
  {
  }

  lemma SimulatedEnd(s: Sys, p: Pid, req: Request, m: SimulationLedger.Market, k: Sys, f: Sys, event: Event,
                     after: Desk,
                     a: SimulationLedger.Attempt)
    requires Room(s, p, req) && s.desks[req.bot].bot.mode == SIMULATION
    requires Mid(s, k, p, req, Keyed, DerivedRow(s, req, None)) && f == ApplySimulate(k, p, m)
    requires event == SimTransition(req.op, m) && after == BotMachine.Step(s.desks[req.bot], event)
    requires a == AttemptOf(s.desks[req.bot], req.op, m)
    ensures Done(s, f, p, req, event, Some(ReplyOf(after.bot, OutcomeOf(a))), DerivedRow(s, req, ReceiptOf(a)))
    ensures SameExchange(k, f)
  {
    SimulatedReceipt(a);
    SimulatedAnswers(s.drafts, req, InnerPayload(req.op, req.bot, s.desks[req.bot].bot), OutcomeOf(a).Raised?,
                     SimulatedStatus(OutcomeOf(a)), after.bot, ReplyOf(after.bot, OutcomeOf(a)));
  }

  lemma SimulatedRun(s: Sys, p: Pid, req: Request, m: SimulationLedger.Market, k: Sys, f: Sys, u: Sys, event: Event,
                     after: Desk, a: SimulationLedger.Attempt)
    requires Room(s, p, req) && s.desks[req.bot].bot.mode == SIMULATION
    requires Mid(s, k, p, req, Keyed, DerivedRow(s, req, None))
    requires event == SimTransition(req.op, m) && after == BotMachine.Step(s.desks[req.bot], event)
    requires a == AttemptOf(s.desks[req.bot], req.op, m)
    requires f == Next(k, Simulate(p, m)) && u == Next(f, Commit(p))
    ensures Ended(s, u, req, event, Some(ReplyOf(after.bot, OutcomeOf(a))), DerivedRow(s, req, ReceiptOf(a)))
    ensures SameExchange(k, u)
  {
    assert Enabled(k, Simulate(p, m));
    SimulatedEnd(s, p, req, m, k, f, event, after, a);
    Commits(s, p, req, f, event, Some(ReplyOf(after.bot, OutcomeOf(a))), DerivedRow(s, req, ReceiptOf(a)), u);
  }

  // ---- The steps of a live transition -----------------------------------------------------------------------------

  function TheCall(s: Sys, req: Request): Call
    requires req.Transition? && req.bot in s.desks
  {
    Call(|s.calls|, InnerId(req, LIVE), SideOf(req.op), QuantityOf(req.op, s.desks[req.bot].bot))
  }

  lemma DeclineHappens(t: Sys, p: Pid, garbled: bool)
    requires In(t, p, Holding) && Moving(t, p)
    requires t.sessions[p].req.op == Resume && t.sessions[p].row.value.bot.mode == LIVE
    ensures Next(t, Decline(p, garbled)) == FinishLive(t, p, if garbled then Malformed else Rejected, None)
  {
  }

  lemma GateStops(k: Sys, p: Pid, verdict: GateVerdict)
    requires In(k, p, Keyed) && Moving(k, p) && k.sessions[p].row.value.bot.mode == LIVE
    requires verdict in {Off, GateVerdict.Refuse, Break}
    ensures Next(k, Gate(p, verdict))
         == match verdict
            case Off => FinishLive(k, p, Disabled, Some(OrderStatus.REJECTED))
            case Refuse => FinishLive(k, p, Rejected, Some(OrderStatus.REJECTED))
            case _ => FinishLive(k, p, Outcome.Raised, Some(OrderStatus.FAILED))
  {
  }

  lemma GatePasses(s: Sys, p: Pid, req: Request, k: Sys, t: Sys, derived: Option<KeyRow>)
    requires req.Transition? && req.bot in s.desks && s.desks[req.bot].bot.mode == LIVE
    requires Mid(s, k, p, req, Keyed, derived) && SameExchange(s, k)
    requires QuantityOf(req.op, s.desks[req.bot].bot) > 0.0 && t == Next(k, Gate(p, Pass))
    ensures Mid(s, t, p, req, Sent, derived)
    ensures t.calls == s.calls + [TheCall(s, req)] && t.book == s.book && t.fate == s.fate
  {
    assert Enabled(k, Gate(p, Pass));
    assert CallOf(Under(s, req, Keyed), |s.calls|) == TheCall(s, req);
    assert t.sessions == s.sessions[p := Under(s, req, Sent)];
  }

  /** The call of this session is known, and the order of it may be. */
  ghost predicate Called(s: Sys, t: Sys, req: Request)
    requires req.Transition? && req.bot in s.desks
  {
    t.calls == s.calls + [TheCall(s, req)] && t.calls[|s.calls|] == TheCall(s, req)
  }

  lemma AcceptHappens(s: Sys, p: Pid, req: Request, t: Sys, phase: Phase, derived: Option<KeyRow>, f: Fate, u: Sys)
    requires req.Transition? && req.bot in s.desks && Mid(s, t, p, req, phase, derived) && Called(s, t, req)
    requires TheCall(s, req).cid !in t.fate && Plausible(TheCall(s, req), f) && u == Next(t, Accept(|s.calls|, f))
    ensures Mid(s, u, p, req, phase, derived) && Called(s, u, req)
    ensures TheCall(s, req) in u.book && TheCall(s, req).cid in u.fate && u.fate[TheCall(s, req).cid] == f
  {
    assert u == t.(book := t.book + [TheCall(s, req)], fate := t.fate[TheCall(s, req).cid := f]);
  }

  function Hearing(p: Pid, confirm: bool, heard: Heard): Step {
    if confirm then Confirm(p, heard) else Reply(p, heard)
  }

  function Waiting(confirm: bool): Phase { if confirm then Doubtful else Sent }

  ghost predicate Waits(t: Sys, p: Pid, confirm: bool) {
    && In(t, p, Waiting(confirm)) && Moving(t, p) && t.sessions[p].call.Some? && t.sessions[p].call.value < |t.calls|
  }

  /** A reply or a confirmation that does not bring a status. */
  lemma NoStatusHappens(t: Sys, p: Pid, confirm: bool, heard: Heard)
    requires Waits(t, p, confirm) && !heard.Ack?
    ensures Next(t, Hearing(p, confirm, heard))
         == if heard.Garbled? then FinishLive(t, p, Outcome.Raised, Some(OrderStatus.FAILED))
            else if confirm then FinishLive(t, p, Unresolved, Some(OrderStatus.FAILED))
            else At(t, p, Doubtful)
  {
  }

  lemma StatusHappens(t: Sys, p: Pid, confirm: bool, status: OrderStatus)
    requires Waits(t, p, confirm)
    requires t.calls[t.sessions[p].call.value] in t.book && Reportable(status, CidOf(t.sessions[p].req), t.fate)
    ensures Next(t, Hearing(p, confirm, Ack(status)))
         == if status !in {NEW, PARTIALLY_FILLED} then FinishLive(t, p, OutcomeOfStatus(status), Some(status))
            else At(t.(drafts := Finalized(t.drafts, InnerId(t.sessions[p].req, LIVE), OrderReceipt(status))), p,
                    Unsettled)
  {
    assert Enabled(t, Hearing(p, confirm, Ack(status)));
    assert Next(t, Hearing(p, confirm, Ack(status))) == Learn(t, p, status);
  }

  lemma DoubtIsMid(s: Sys, p: Pid, req: Request, t: Sys, derived: Option<KeyRow>, u: Sys)
    requires req.Transition? && req.bot in s.desks && Mid(s, t, p, req, Sent, derived) && u == At(t, p, Doubtful)
    ensures Mid(s, u, p, req, Doubtful, derived)
  {
    assert u.sessions == s.sessions[p := Under(s, req, Doubtful)];
  }

  lemma OpenIsMid(s: Sys, p: Pid, req: Request, t: Sys, confirm: bool, status: OrderStatus, u: Sys)
    requires req.Transition? && req.bot in s.desks && s.desks[req.bot].bot.mode == LIVE
    requires Mid(s, t, p, req, Waiting(confirm), DerivedRow(s, req, None))
    requires u == At(t.(drafts := Finalized(t.drafts, InnerId(req, LIVE), OrderReceipt(status))), p, Unsettled)
    ensures Mid(s, u, p, req, Unsettled, DerivedRow(s, req, Some(OrderReceipt(status)))) && SameExchange(t, u)
  {
    assert u.sessions == s.sessions[p := Under(s, req, Unsettled)];
  }

  lemma ReconcileHappens(t: Sys, p: Pid, heard: Heard)
    requires In(t, p, Unsettled) && Moving(t, p)
    requires heard.Ack? ==> Reportable(heard.status, CidOf(t.sessions[p].req), t.fate)
    ensures Next(t, Reconcile(p, heard))
         == FinishLive(t, p, if heard.Ack? then OutcomeOfStatus(heard.status)
                             else if heard.Failure? then Unresolved else Malformed, None)
  {
  }

  // ---- Whole runs -----------------------------------------------------------------------------------------

  /** The transition ended with this outcome, in the database and for the client. */
  ghost predicate Settled(s: Sys, u: Sys, req: Request, outcome: Outcome, derived: Option<KeyRow>)
    requires req.Transition? && req.bot in s.desks
  {
    var event := LiveTransition(req.op, outcome);
    Ended(s, u, req, event, ReplyStored(BotMachine.Step(s.desks[req.bot], event).bot, outcome), derived)
  }

  lemma RunOfTwo(s: Sys, a: Step, b: Step)
    ensures Protocol.Run(s, [a, b]) == Next(Next(s, a), b)
  {
    assert [a, b][..1] == [a] && [a][..0] == [];
    assert Protocol.Run(s, [a]) == Next(s, a);
  }

  lemma RunOfThree(s: Sys, a: Step, b: Step, c: Step)
    ensures Protocol.Run(s, [a] + [b, c]) == Next(Next(Next(s, a), b), c)
  {
    RunAfter(s, a, [b, c]);
    RunOfTwo(Next(s, a), b, c);
  }

  lemma {:induction false} RunAfter(s: Sys, a: Step, steps: seq<Step>)
    ensures Protocol.Run(s, [a] + steps) == Protocol.Run(Next(s, a), steps)
  {
    if steps == [] {
      assert [a] + steps == [a] && [a][..0] == [];
    } else {
      RunAfter(s, a, steps[..|steps| - 1]);
      assert ([a] + steps)[..|[a] + steps| - 1] == [a] + steps[..|steps| - 1];
    }
  }

  /** One step that ends a live transition, and the commit. */
  lemma EndsHere(s: Sys, p: Pid, req: Request, t: Sys, phase: Phase, derived: Option<KeyRow>, outcome: Outcome,
                 returned: Option<OrderStatus>, step: Step) returns (steps: seq<Step>)
    requires Room(s, p, req) && s.desks[req.bot].bot.mode == LIVE && Mid(s, t, p, req, phase, derived)
    requires Next(t, step) == FinishLive(t, p, outcome, returned) && !step.Crash?
    ensures CrashFree(steps) && Settled(s, Protocol.Run(t, steps), req, outcome, Returned(derived, returned))
    ensures Protocol.Run(t, steps).calls == t.calls
  {
    steps := [step, Commit(p)];
    RunOfTwo(t, step, Commit(p));
    EndsLive(s, p, req, t, phase, derived, outcome, returned, Next(t, step), Protocol.Run(t, steps));
  }

  lemma Prepend(s: Sys, req: Request, t: Sys, step: Step, rest: seq<Step>, outcome: Outcome, derived: Option<KeyRow>)
    returns (steps: seq<Step>)
    requires req.Transition? && req.bot in s.desks && !step.Crash? && CrashFree(rest)
    requires Settled(s, Protocol.Run(Next(t, step), rest), req, outcome, derived)
    ensures CrashFree(steps) && Settled(s, Protocol.Run(t, steps), req, outcome, derived)
    ensures Protocol.Run(t, steps).calls == Protocol.Run(Next(t, step), rest).calls
  {
    steps := [step] + rest;
    RunAfter(t, step, rest);
  }

  /** What the exchange will turn out to know about the order. */
  function Truth(o: OrderService.Submission, w: Weather): OrderStatus {
    var status := BotService.LinkedRow(o, w).status;
    if IsTerminal(status) && status != OrderStatus.FAILED then status else NEW
  }

  function TrueFate(o: OrderService.Submission, w: Weather): Fate {
    Fate(Truth(o, w), if Truth(o, w) == FILLED then o.quantity else 0.0)
  }

  /** The reply that brought the order's first status was readable. */
  ghost predicate Told(o: OrderService.Submission, w: Weather) {
    && w.order.permitted && OrderService.GateOf(o, w.order).Passes? && !OrderService.Trips(o, w.order)
    && (w.order.created.Ok? || w.order.confirmed.Ok?)
  }

  lemma ToldStatuses(o: OrderService.Submission, w: Weather)
    requires Told(o, w)
    ensures var status := OrderService.RowAfter(o, w.order).status;
            && status != OrderStatus.FAILED
            && (IsTerminal(status) ==> Truth(o, w) == status)
            && BotService.PlacedOutcome(o, w)
               == (if status !in {NEW, PARTIALLY_FILLED} then OutcomeOfStatus(status)
                   else if w.reread.BinanceFailure? then Unresolved
                   else if w.reread.OtherFailure? || !WellFormed(w.reread.value) then Malformed
                   else OutcomeOfStatus(Updated(OrderService.RowAfter(o, w.order), w.reread.value).status))
  {
  }

  lemma RereadStatus(o: OrderService.Submission, w: Weather)
    requires Told(o, w) && OrderService.RowAfter(o, w.order).status in {NEW, PARTIALLY_FILLED}
    requires w.reread.Ok? && WellFormed(w.reread.value)
    ensures var status := Updated(OrderService.RowAfter(o, w.order), w.reread.value).status;
            status != OrderStatus.FAILED && (IsTerminal(status) ==> Truth(o, w) == status)
  {
  }

  /** What the derived key holds at the end: the status `create_order` returned. */
  function PlacedUnder(s: Sys, req: Request, o: OrderService.Submission, w: Weather): Option<KeyRow>
    requires req.Transition? && req.bot in s.desks
  {
    DerivedRow(s, req, Some(OrderReceipt(BotService.PlacedStatus(o, w))))
  }

  /** What the one read of an open order brings. */
  function RereadHeard(o: OrderService.Submission, w: Weather): Heard {
    if w.reread.BinanceFailure? then Failure
    else if w.reread.OtherFailure? || !WellFormed(w.reread.value) then Garbled
    else Ack(Updated(OrderService.RowAfter(o, w.order), w.reread.value).status)
  }

  lemma RereadRun(s: Sys, p: Pid, req: Request, w: Weather, o: OrderService.Submission, open: Sys)
    returns (steps: seq<Step>)
    requires Room(s, p, req) && s.desks[req.bot].bot.mode == LIVE && Told(o, w)
    requires OrderService.RowAfter(o, w.order).status in {NEW, PARTIALLY_FILLED}
    requires Mid(s, open, p, req, Unsettled, PlacedUnder(s, req, o, w))
    requires InnerId(req, LIVE) in open.fate && open.fate[InnerId(req, LIVE)].status == Truth(o, w)
    ensures CrashFree(steps)
    ensures Settled(s, Protocol.Run(open, steps), req, BotService.PlacedOutcome(o, w), PlacedUnder(s, req, o, w))
    ensures Protocol.Run(open, steps).calls == open.calls
  {
    var heard := RereadHeard(o, w);
    ToldStatuses(o, w);
    if heard.Ack? {
      RereadStatus(o, w);
    }
    ReconcileHappens(open, p, heard);
    steps := EndsHere(s, p, req, open, Unsettled, PlacedUnder(s, req, o, w), BotService.PlacedOutcome(o, w), None,
                      Reconcile(p, heard));
  }

  /** The status arrives; an open order is read once more. */
  lemma TellingRun(s: Sys, p: Pid, req: Request, w: Weather, o: OrderService.Submission, t: Sys, confirm: bool)
    returns (steps: seq<Step>)
    requires Room(s, p, req) && s.desks[req.bot].bot.mode == LIVE && Called(s, t, req) && Told(o, w)
    requires Mid(s, t, p, req, Waiting(confirm), DerivedRow(s, req, None))
    requires TheCall(s, req) in t.book && InnerId(req, LIVE) in t.fate
    requires t.fate[InnerId(req, LIVE)].status == Truth(o, w)
    ensures CrashFree(steps)
    ensures Settled(s, Protocol.Run(t, steps), req, BotService.PlacedOutcome(o, w), PlacedUnder(s, req, o, w))
    ensures Protocol.Run(t, steps).calls == t.calls
  {
    var status := OrderService.RowAfter(o, w.order).status;
    var step := Hearing(p, confirm, Ack(status));
    ToldStatuses(o, w);
    StatusHappens(t, p, confirm, status);
    if status !in {NEW, PARTIALLY_FILLED} {
      steps := EndsHere(s, p, req, t, Waiting(confirm), DerivedRow(s, req, None), OutcomeOfStatus(status),
                        Some(status), step);
    } else {
      var open := Next(t, step);
      OpenIsMid(s, p, req, t, confirm, status, open);
      steps := RereadRun(s, p, req, w, o, open);
      steps := Prepend(s, req, t, step, steps, BotService.PlacedOutcome(o, w), PlacedUnder(s, req, o, w));
    }
  }

  lemma TruthIsPlausible(s: Sys, req: Request, w: Weather)
    requires req.Transition? && req.bot in s.desks && QuantityOf(req.op, s.desks[req.bot].bot) > 0.0
    ensures Plausible(TheCall(s, req), TrueFate(BotService.SubmissionOf(req.op, s.desks[req.bot].bot), w))
  {
  }

  /** The exchange accepts the order, and its status gets through at once or when asked again. */
  lemma AcceptedRun(s: Sys, p: Pid, req: Request, w: Weather, o: OrderService.Submission, t: Sys, confirm: bool)
    returns (steps: seq<Step>)
    requires Room(s, p, req) && s.desks[req.bot].bot.mode == LIVE && Called(s, t, req) && Told(o, w)
    requires o == BotService.SubmissionOf(req.op, s.desks[req.bot].bot) && o.quantity > 0.0
    requires Mid(s, t, p, req, Waiting(confirm), DerivedRow(s, req, None)) && InnerId(req, LIVE) !in t.fate
    ensures CrashFree(steps)
    ensures Settled(s, Protocol.Run(t, steps), req, BotService.PlacedOutcome(o, w), PlacedUnder(s, req, o, w))
    ensures Protocol.Run(t, steps).calls == t.calls
  {
    var accept := Accept(|s.calls|, TrueFate(o, w));
    TruthIsPlausible(s, req, w);
    var u := Next(t, accept);
    AcceptHappens(s, p, req, t, Waiting(confirm), DerivedRow(s, req, None), TrueFate(o, w), u);
    steps := TellingRun(s, p, req, w, o, u, confirm);
    steps := Prepend(s, req, t, accept, steps, BotService.PlacedOutcome(o, w), PlacedUnder(s, req, o, w));
  }

  /** The submission failed: one confirmation, whatever it brings. */
  lemma DoubtedRun(s: Sys, p: Pid, req: Request, w: Weather, o: OrderService.Submission, t: Sys)
    returns (steps: seq<Step>)
    requires Room(s, p, req) && s.desks[req.bot].bot.mode == LIVE && Called(s, t, req)
    requires o == BotService.SubmissionOf(req.op, s.desks[req.bot].bot) && o.quantity > 0.0
    requires w.order.permitted && OrderService.GateOf(o, w.order).Passes? && w.order.created.BinanceFailure?
    requires Mid(s, t, p, req, Doubtful, DerivedRow(s, req, None)) && InnerId(req, LIVE) !in t.fate
    ensures CrashFree(steps)
    ensures Settled(s, Protocol.Run(t, steps), req, BotService.PlacedOutcome(o, w), PlacedUnder(s, req, o, w))
    ensures Protocol.Run(t, steps).calls == t.calls
  {
    if w.order.confirmed.Ok? && WellFormed(w.order.confirmed.value) {
      steps := AcceptedRun(s, p, req, w, o, t, true);
    } else {
      var heard := if w.order.confirmed.BinanceFailure? then Failure else Garbled;
      NoStatusHappens(t, p, true, heard);
      UnconfirmedOutcome(o, w);
      steps := EndsHere(s, p, req, t, Doubtful, DerivedRow(s, req, None),
                        if heard.Failure? then Unresolved else Outcome.Raised,
                        Some(OrderStatus.FAILED), Confirm(p, heard));
    }
  }

  lemma UnconfirmedOutcome(o: OrderService.Submission, w: Weather)
    requires w.order.permitted && OrderService.GateOf(o, w.order).Passes? && w.order.created.BinanceFailure?
    requires !(w.order.confirmed.Ok? && WellFormed(w.order.confirmed.value))
    ensures BotService.PlacedOutcome(o, w) == if w.order.confirmed.BinanceFailure? then Unresolved else Outcome.Raised
    ensures BotService.PlacedStatus(o, w) == OrderStatus.FAILED
  {
  }

  lemma CalledRun(s: Sys, p: Pid, req: Request, w: Weather, o: OrderService.Submission, t: Sys)
    returns (steps: seq<Step>)
    requires Room(s, p, req) && s.desks[req.bot].bot.mode == LIVE && Called(s, t, req)
    requires o == BotService.SubmissionOf(req.op, s.desks[req.bot].bot) && o.quantity > 0.0
    requires w.order.permitted && OrderService.GateOf(o, w.order).Passes?
    requires Mid(s, t, p, req, Sent, DerivedRow(s, req, None)) && InnerId(req, LIVE) !in t.fate
    ensures CrashFree(steps)
    ensures Settled(s, Protocol.Run(t, steps), req, BotService.PlacedOutcome(o, w), PlacedUnder(s, req, o, w))
    ensures Protocol.Run(t, steps).calls == t.calls
  {
    if w.order.created.Ok? && WellFormed(w.order.created.value) {
      steps := AcceptedRun(s, p, req, w, o, t, false);
    } else if w.order.created.BinanceFailure? {
      NoStatusHappens(t, p, false, Failure);
      var doubted := Next(t, Reply(p, Failure));
      DoubtIsMid(s, p, req, t, DerivedRow(s, req, None), doubted);
      steps := DoubtedRun(s, p, req, w, o, doubted);
      steps := Prepend(s, req, t, Reply(p, Failure), steps, BotService.PlacedOutcome(o, w), PlacedUnder(s, req, o, w));
    } else {
      NoStatusHappens(t, p, false, Garbled);
      steps := EndsHere(s, p, req, t, Sent, DerivedRow(s, req, None), Outcome.Raised, Some(OrderStatus.FAILED),
                        Reply(p, Garbled));
    }
  }

  function StoppingVerdict(o: OrderService.Submission, w: Weather): GateVerdict {
    if !w.order.permitted then Off else if OrderService.GateOf(o, w.order).Stops? then GateVerdict.Refuse else Break
  }

  lemma StoppedOutcome(o: OrderService.Submission, w: Weather)
    requires !(w.order.permitted && OrderService.GateOf(o, w.order).Passes?)
    ensures BotService.PlacedOutcome(o, w)
         == (match StoppingVerdict(o, w) case Off => Disabled case Refuse => Outcome.Rejected case _ => Outcome.Raised)
    ensures BotService.PlacedStatus(o, w)
         == if StoppingVerdict(o, w).Break? then OrderStatus.FAILED else OrderStatus.REJECTED
  {
  }

  /** The gates stop the order before it is sent. */
  lemma StoppedRun(s: Sys, p: Pid, req: Request, w: Weather, o: OrderService.Submission, k: Sys)
    returns (steps: seq<Step>)
    requires Room(s, p, req) && s.desks[req.bot].bot.mode == LIVE && Mid(s, k, p, req, Keyed, DerivedRow(s, req, None))
    requires !(w.order.permitted && OrderService.GateOf(o, w.order).Passes?)
    ensures CrashFree(steps)
    ensures Settled(s, Protocol.Run(k, steps), req, BotService.PlacedOutcome(o, w), PlacedUnder(s, req, o, w))
    ensures Protocol.Run(k, steps).calls == k.calls
  {
    var verdict := StoppingVerdict(o, w);
    StoppedOutcome(o, w);
    GateStops(k, p, verdict);
    steps := EndsHere(s, p, req, k, Keyed, DerivedRow(s, req, None), BotService.PlacedOutcome(o, w),
                      Some(BotService.PlacedStatus(o, w)), Gate(p, verdict));
  }

  /** From the claimed derived key to the commit. */
  lemma PlacedRun(s: Sys, p: Pid, req: Request, w: Weather, o: OrderService.Submission, k: Sys)
    returns (steps: seq<Step>)
    requires Room(s, p, req) && s.desks[req.bot].bot.mode == LIVE && InnerId(req, LIVE) !in s.fate
    requires o == BotService.SubmissionOf(req.op, s.desks[req.bot].bot)
    requires Mid(s, k, p, req, Keyed, DerivedRow(s, req, None)) && SameExchange(s, k)
    ensures CrashFree(steps)
    ensures Settled(s, Protocol.Run(k, steps), req, BotService.PlacedOutcome(o, w), PlacedUnder(s, req, o, w))
    ensures Protocol.Run(k, steps).calls
         == if w.order.permitted && OrderService.GateOf(o, w.order).Passes? then s.calls + [TheCall(s, req)]
            else s.calls
  {
    if w.order.permitted && OrderService.GateOf(o, w.order).Passes? {
      OrderService.GatePassesExactlyWithinRulesAndLimits(o, w.order);
      var t := Next(k, Gate(p, Pass));
      GatePasses(s, p, req, k, t, DerivedRow(s, req, None));
      steps := CalledRun(s, p, req, w, o, t);
      steps := Prepend(s, req, k, Gate(p, Pass), steps, BotService.PlacedOutcome(o, w), PlacedUnder(s, req, o, w));
    } else {
      steps := StoppedRun(s, p, req, w, o, k);
    }
  }

  /** From the locked row to the commit. */
  lemma LiveRun(s: Sys, p: Pid, req: Request, w: Weather, t: Sys) returns (steps: seq<Step>)
    requires Room(s, p, req) && s.desks[req.bot].bot.mode == LIVE && InnerId(req, LIVE) !in s.fate
    requires Mid(s, t, p, req, Holding, None) && SameExchange(s, t)
    ensures var d := s.desks[req.bot];
            var o, outcome := BotService.SubmissionOf(req.op, d.bot), BotService.LiveOutcome(req.op, d.bot, w);
            && CrashFree(steps)
            && Settled(s, Protocol.Run(t, steps), req, outcome, BotService.InnerRow(req.op, req.bot, d, w))
            && Protocol.Run(t, steps).calls
               == (if BotService.Funded(req.op, d.bot, w) && w.order.permitted
                   && OrderService.GateOf(o, w.order).Passes?
                   then s.calls + [TheCall(s, req)] else s.calls)
  {
    var bot := s.desks[req.bot].bot;
    if BotService.Funded(req.op, bot, w) {
      var k := Next(t, ReserveInner(p));
      ClaimsInner(s, p, req, t, k);
      var o := BotService.SubmissionOf(req.op, bot);
      steps := PlacedRun(s, p, req, w, o, k);
      steps := Prepend(s, req, t, ReserveInner(p), steps, BotService.LiveOutcome(req.op, bot, w),
                       PlacedUnder(s, req, o, w));
    } else {
      var garbled := w.funds.OtherFailure?;
      DeclineHappens(t, p, garbled);
      steps := EndsHere(s, p, req, t, Holding, None, BotService.LiveOutcome(req.op, bot, w), None, Decline(p, garbled));
    }
  }

  lemma SimulationRun(s: Sys, p: Pid, req: Request, w: Weather, t: Sys, event: Event, after: Desk,
                      a: SimulationLedger.Attempt)
    returns (steps: seq<Step>)
    requires Room(s, p, req) && s.desks[req.bot].bot.mode == SIMULATION && Mid(s, t, p, req, Holding, None)
    requires event == SimTransition(req.op, w.market) && after == BotMachine.Step(s.desks[req.bot], event)
    requires a == AttemptOf(s.desks[req.bot], req.op, w.market)
    ensures CrashFree(steps)
    ensures Ended(s, Protocol.Run(t, steps), req, event, Some(ReplyOf(after.bot, OutcomeOf(a))),
                  DerivedRow(s, req, ReceiptOf(a)))
    ensures Protocol.Run(t, steps).calls == t.calls
  {
    var k := Next(t, ReserveInner(p));
    var f := Next(k, Simulate(p, w.market));
    ClaimsInner(s, p, req, t, k);
    SimulatedRun(s, p, req, w.market, k, f, Next(f, Commit(p)), event, after, a);
    steps := [ReserveInner(p)] + [Simulate(p, w.market), Commit(p)];
    RunOfThree(t, ReserveInner(p), Simulate(p, w.market), Commit(p));
  }

  /** Begin, claim, lock, and then the rest. */
  lemma FromTheStart(s: Sys, p: Pid, req: Request, begun: Sys, claimed: Sys, t: Sys, rest: seq<Step>)
    returns (steps: seq<Step>)
    requires begun == Next(s, Begin(p, req)) && claimed == Next(begun, Reserve(p)) && t == Next(claimed, Load(p))
    requires CrashFree(rest)
    ensures CrashFree(steps) && Protocol.Run(s, steps) == Protocol.Run(t, rest)
  {
    var loaded := [Load(p)] + rest;
    var reserved := [Reserve(p)] + loaded;
    RunAfter(claimed, Load(p), rest);
    RunAfter(begun, Reserve(p), loaded);
    RunAfter(s, Begin(p, req), reserved);
    steps := [Begin(p, req)] + reserved;
    assert CrashFree(loaded) && CrashFree(reserved);
  }

  /** The transition as the service performs it, whatever it hears: the bot row and account, both
      keys with their payloads and responses, and the call, if any, at the exchange. */
  ghost predicate AsTheService(s: Sys, u: Sys, req: Request, w: Weather)
    requires req.Transition? && req.bot in s.desks
  {
    var d := s.desks[req.bot];
    var event, outcome := BotService.BotService.EventOf(req.op, d.bot, w),
        BotService.BotService.OutcomeIn(req.op, d, w);
    && Ended(s, u, req, event, ReplyStored(BotMachine.Step(d, event).bot, outcome),
             BotService.InnerRow(req.op, req.bot, d, w))
    && u.calls == (if d.bot.mode == LIVE && BotService.Funded(req.op, d.bot, w) && w.order.permitted
                      && OrderService.GateOf(BotService.SubmissionOf(req.op, d.bot), w.order).Passes?
                   then s.calls + [TheCall(s, req)] else s.calls)
  }

  /** From any orderly state in which the order's id is not known to the exchange. */
  lemma ReadyTransitionIsARun(s: Sys, p: Pid, req: Request, w: Weather) returns (steps: seq<Step>)
    requires Ready(s, p, req) && InnerId(req, LIVE) !in s.fate
    ensures CrashFree(steps) && AsTheService(s, Protocol.Run(s, steps), req, w)
  {
    var begun := Next(s, Begin(p, req));
    var claimed := Next(begun, Reserve(p));
    var t := Next(claimed, Load(p));
    ClaimsOuter(s, p, req, claimed);
    LocksRow(s, p, req, claimed, t);
    ReadyHasRoom(s, p, req);
    var d := s.desks[req.bot];
    if d.bot.mode == LIVE {
      steps := LiveRun(s, p, req, w, t);
    } else {
      var event := SimTransition(req.op, w.market);
      steps := SimulationRun(s, p, req, w, t, event, BotMachine.Step(d, event), AttemptOf(d, req.op, w.market));
    }
    steps := FromTheStart(s, p, req, begun, claimed, t, steps);
  }

  lemma KnownIdWasUsed(calls: seq<Call>, book: seq<Call>, fate: Fates, id: KeyId)
    requires BookOk(calls, book, fate) && id in fate
    ensures Uses(calls, id)
  {
    assert HasEntry(book, id);
    var i :| 0 <= i < |book| && book[i].cid == id;
    assert EntryOk(book[i], calls, fate);
  }

  /** As long as no call under an id was lost: while its key is free, the exchange does not know it. */
  lemma FreeKeyIsUnknown(s: Sys, id: KeyId)
    requires Recorded(s) && Once(s, id) && id !in s.keys && id !in s.owners
    ensures id !in s.fate
  {
    if id in s.fate {
      KnownIdWasUsed(s.calls, s.book, s.fate, id);
    }
  }

  /** After any run that keeps the calls under the order's id, and whatever a ready transition hears,
      some crash-free run of one session continues it to the state the service leaves. */
  lemma ServiceTransitionIsAProtocolRun(steps: seq<Step>, p: Pid, req: Request, w: Weather) returns (more: seq<Step>)
    requires Ready(Reached(steps), p, req) && KeepsCalls(steps, InnerId(req, LIVE))
    ensures CrashFree(more) && AsTheService(Reached(steps), Protocol.Run(Reached(steps), more), req, w)
    ensures OuterId(req) == KeyId(req.user, TransitionBot(req.op, req.bot), Client(req.text))
    ensures InnerId(req, LIVE) == KeyId(req.user, Orders, Inner(req.op, req.bot, req.text))
  {
    RunsAreRecorded(steps);
    RunsCallOnce(steps, InnerId(req, LIVE));
    DerivedKeyIsFree(Reached(steps), p, req, LIVE);
    FreeKeyIsUnknown(Reached(steps), InnerId(req, LIVE));
    more := ReadyTransitionIsARun(Reached(steps), p, req, w);
  }
}
