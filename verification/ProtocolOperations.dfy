/** The remaining operations of the services, as runs of the interleaving model: changes of a bot, its
    deletion and creation, and orders placed by hand. */
module ProtocolOperations {
  import opened Common
  import opened Idempotency
  import opened Reconciliation
  import opened BotMachine
  import opened Requests
  import opened Protocol
  import opened ProtocolSafety
  import opened ProtocolCalls
  import opened ProtocolServices
  import OrderService
  import BotService
  import SimulationLedger

  // ---- Operations without an order ----------------------------------------------------------------------------------

  function Whole(p: Pid, req: Request): seq<Step> { [Begin(p, req)] + ([Reserve(p)] + [Load(p), Commit(p)]) }

  lemma WholeIsCrashFree(p: Pid, req: Request)
    ensures CrashFree(Whole(p, req))
  {
  }

  lemma WholeRun(s: Sys, p: Pid, req: Request, c: Sys)
    requires c == Next(Next(s, Begin(p, req)), Reserve(p))
    ensures Protocol.Run(s, Whole(p, req)) == Next(Next(c, Load(p)), Commit(p))
  {
    RunAfter(s, Begin(p, req), [Reserve(p)] + [Load(p), Commit(p)]);
    RunAfter(Next(s, Begin(p, req)), Reserve(p), [Load(p), Commit(p)]);
    RunOfTwo(c, Load(p), Commit(p));
  }

  /** What is left of a session that ended as soon as it had loaded its row: its key is answered, its row
      is written, and everything it held is free again. */
  function Afterwards(s: Sys, req: Request, write: Write, receipt: Receipt): Sys {
    var rows := RowsAfter(SessionFor(req).(phase := Finished, write := write), s.desks, s.hist);
    s.(keys := s.keys[OuterId(req) := Row(PayloadOf(req), Some(receipt))], desks := rows.desks, hist := rows.hist)
  }

  lemma LandsAtOnce(s: Sys, p: Pid, req: Request, locks: Locks, write: Write, receipt: Receipt)
    ensures Land(Claiming(s, p, req).(locks := locks), p, Ending(write, receipt))
         == s.(sessions := s.sessions[p := SessionFor(req).(phase := Finished, write := write)],
               owners := s.owners[OuterId(req) := p],
               drafts := s.drafts[OuterId(req) := Row(PayloadOf(req), Some(receipt))],
               locks := locks)
  {
    var t := Land(Claiming(s, p, req).(locks := locks), p, Ending(write, receipt));
    assert t.sessions == s.sessions[p := SessionFor(req).(phase := Finished, write := write)];
  }

  lemma OneKeyIsKept(s: Sys, t: Sys, p: Pid, id: KeyId, row: KeyRow)
    requires s.owners.Keys == s.drafts.Keys && id !in s.owners && forall i :: i in s.owners ==> s.owners[i] != p
    requires t.owners == s.owners[id := p] && t.drafts == s.drafts[id := row]
    ensures Kept(t, p) == map[id := row] && Leave(t, p).drafts == s.drafts
  {
    assert forall i :: i in s.drafts ==> i in s.owners.Keys && !Owns(t, p, i);
    assert Owns(t, p, id);
  }

  lemma CommitStores(t: Sys, p: Pid, u: Sys)
    requires p in t.sessions && u == ApplyCommit(t, p)
    ensures u.keys == t.keys + Kept(t, p) && u.drafts == Leave(t, p).drafts && u.sessions == t.sessions - {p}
    ensures u.owners == OthersKeys(t.owners, p) && u.locks == OthersLocks(t.locks, p) && SameExchange(t, u)
    ensures u.desks == RowsAfter(t.sessions[p], t.desks, t.hist).desks
    ensures u.hist == RowsAfter(t.sessions[p], t.desks, t.hist).hist
  {
  }

  lemma SessionIsGone(sessions: Sessions, p: Pid, n: Session)
    requires p !in sessions
    ensures sessions[p := n] - {p} == sessions
  {
  }

  lemma KeyIsAdded(keys: map<KeyId, KeyRow>, id: KeyId, row: KeyRow)
    ensures keys + map[id := row] == keys[id := row]
  {
  }

  lemma HeldLocksAreFreed(s: Sys, p: Pid, req: Request, locks: Locks)
    requires Orderly(s) && p !in s.sessions && !req.PlaceOrder?
    requires locks == s.locks || (req.bot !in s.locks && locks == s.locks[req.bot := p])
    ensures OthersLocks(locks, p) == s.locks && forall id :: id in s.owners ==> s.owners[id] != p
  {
    NewcomerHoldsNothingYet(s, p);
    if req.bot !in s.locks {
      OwnLockIsFreed(s.locks, p, req.bot);
    }
  }

  lemma CommitHappens(t: Sys, p: Pid)
    requires In(t, p, Finished)
    ensures Next(t, Commit(p)) == ApplyCommit(t, p)
  {
  }

  lemma LoadHappens(c: Sys, p: Pid)
    requires Enabled(c, Load(p))
    ensures Next(c, Load(p)) == ApplyLoad(c, p)
  {
  }

  /** Begin, claim, load, end, commit. */
  lemma RunsAtOnce(s: Sys, p: Pid, req: Request, locks: Locks, write: Write, receipt: Receipt, c: Sys)
    requires Novel(s, p, req) && !req.PlaceOrder? && c == Claiming(s, p, req) && Enabled(c, Load(p))
    requires locks == s.locks || (req.bot !in s.locks && locks == s.locks[req.bot := p])
    requires ApplyLoad(c, p) == Land(c.(locks := locks), p, Ending(write, receipt))
    ensures Protocol.Run(s, Whole(p, req)) == Afterwards(s, req, write, receipt)
  {
    var t := Land(c.(locks := locks), p, Ending(write, receipt));
    NovelClaims(s, p, req);
    WholeRun(s, p, req, c);
    LoadHappens(c, p);
    CommitHappens(t, p);
    LandsAtOnce(s, p, req, locks, write, receipt);
    HeldLocksAreFreed(s, p, req, locks);
    CommitStores(t, p, ApplyCommit(t, p));
    var id, row := OuterId(req), Row(PayloadOf(req), Some(receipt));
    OneKeyIsKept(s, t, p, id, row);
    OwnKeysAreFreed(s.owners, p, id, id);
    SessionIsGone(s.sessions, p, t.sessions[p]);
    KeyIsAdded(s.keys, id, row);
  }

  function DeskAt(s: Sys, b: nat): Option<Desk> { if b in s.desks then Some(s.desks[b]) else None }

  /** Nothing but this key and this bot's row has changed. */
  ghost predicate OnlyKeyAndBot(s: Sys, u: Sys, b: nat) {
    && u.sessions == s.sessions && u.owners == s.owners && u.drafts == s.drafts && u.locks == s.locks
    && SameExchange(s, u)
    && (forall c :: c != b ==> (c in u.desks <==> c in s.desks) && (c in u.desks ==> u.desks[c] == s.desks[c]))
  }

  function Stored(s: Sys, req: Request, receipt: Receipt): map<KeyId, KeyRow> {
    s.keys[OuterId(req) := Row(PayloadOf(req), Some(receipt))]
  }

  lemma NothingWritten(s: Sys, req: Request, receipt: Receipt, u: Sys, b: nat)
    requires u == Afterwards(s, req, NoWrite, receipt)
    ensures OnlyKeyAndBot(s, u, b) && u.desks == s.desks && u.keys == Stored(s, req, receipt)
  {
  }

  lemma RowWritten(s: Sys, req: Request, event: Event, desk: Desk, receipt: Receipt, u: Sys)
    requires req.Manage? && req.bot in s.hist && u == Afterwards(s, req, Put(event, desk), receipt)
    ensures OnlyKeyAndBot(s, u, req.bot) && u.desks == s.desks[req.bot := desk] && u.keys == Stored(s, req, receipt)
  {
  }

  lemma RowDropped(s: Sys, req: Request, receipt: Receipt, u: Sys)
    requires req.Remove? && u == Afterwards(s, req, Drop, receipt)
    ensures OnlyKeyAndBot(s, u, req.bot) && u.desks == s.desks - {req.bot} && u.keys == Stored(s, req, receipt)
  {
  }

  /** A request that finds no bot of its user. */
  lemma FindsNothing(s: Sys, p: Pid, req: Request)
    requires Novel(s, p, req) && !req.PlaceOrder? && !req.Open? && !Finds(s, req)
    ensures Protocol.Run(s, Whole(p, req)) == Afterwards(s, req, NoWrite, BotReceipt(None, Declined))
  {
    var c := Claiming(s, p, req);
    LoadsClaimed(s, p, req, c);
    RunsAtOnce(s, p, req, s.locks, NoWrite, BotReceipt(None, Declined), c);
  }

  /** A request that finds its bot and ends with it. */
  lemma FindsItsBot(s: Sys, p: Pid, req: Request, write: Write, receipt: Receipt)
    requires Novel(s, p, req) && !req.PlaceOrder? && !req.Open? && Finds(s, req) && req.bot !in s.locks
    requires LandingOf(req, s.desks[req.bot]) == Ending(write, receipt)
    ensures Protocol.Run(s, Whole(p, req)) == Afterwards(s, req, write, receipt)
  {
    var c := Claiming(s, p, req);
    LoadsClaimed(s, p, req, c);
    RunsAtOnce(s, p, req, s.locks[req.bot := p], write, receipt, c);
  }

  /** Stop, update and activate: one session alone leaves what `BotService.Managed` promises. */
  lemma ServiceChangeIsAProtocolRun(s: Sys, p: Pid, req: Request, u: Sys) returns (r: OrderService.Reply)
    requires Novel(s, p, req) && req.Manage? && (Finds(s, req) ==> req.bot !in s.locks)
    requires u == Protocol.Run(s, Whole(p, req))
    ensures CrashFree(Whole(p, req)) && OnlyKeyAndBot(s, u, req.bot)
    ensures var endpoint := match req.event
                            case Stop => StopBot(req.bot)
                            case UpdateTarget(_) => UpdateBot(req.bot)
                            case _ => ActivateLive(req.bot);
            var payload := if req.event.UpdateTarget? then UpdatePayload(req.bot, req.event.target)
                           else BotPayload(req.bot);
            var id := KeyId(req.user, endpoint, Client(req.text));
            BotService.BotService.Managed(r, id, payload, req.event, DeskAt(s, req.bot), DeskAt(u, req.bot),
                                          s.keys, u.keys, [], [id])
  {
    WholeIsCrashFree(p, req);
    if !Finds(s, req) {
      r := OrderService.NotFound;
      FindsNothing(s, p, req);
      NothingWritten(s, req, BotReceipt(None, Declined), u, req.bot);
    } else {
      var d := s.desks[req.bot];
      assert DeskOk(req.bot, s.desks, s.hist);
      if Admits(d.bot, req.event) {
        var after := BotMachine.Step(d, req.event);
        r := OrderService.Done(BotReceipt(Some(after.bot), Now(after.bot.status)));
        FindsItsBot(s, p, req, Put(req.event, after), r.receipt);
        RowWritten(s, req, req.event, after, r.receipt, u);
      } else {
        r := OrderService.Refused;
        FindsItsBot(s, p, req, NoWrite, BotReceipt(Some(d.bot), Declined));
        NothingWritten(s, req, BotReceipt(Some(d.bot), Declined), u, req.bot);
      }
    }
  }

  /** Deletion: only a PAUSED or STOPPED bot of this user goes, as `BotService.DeleteBot` promises. */
  lemma ServiceDeletionIsAProtocolRun(s: Sys, p: Pid, req: Request, u: Sys)
    requires Novel(s, p, req) && req.Remove? && (Finds(s, req) ==> req.bot !in s.locks)
    requires u == Protocol.Run(s, Whole(p, req))
    ensures CrashFree(Whole(p, req)) && OnlyKeyAndBot(s, u, req.bot)
    ensures var found := req.bot in s.desks && s.desks[req.bot].bot.user == req.user;
            var id := KeyId(req.user, DeleteBot(req.bot), Client(req.text));
            if found && s.desks[req.bot].bot.status in {PAUSED, STOPPED} then
              u.desks == s.desks - {req.bot} && u.keys == s.keys[id := Row(BotPayload(req.bot),
                                                                           Some(BotReceipt(None, Deleted)))]
            else
              && u.desks == s.desks
              && u.keys == s.keys[id := Row(BotPayload(req.bot), Some(
                   BotReceipt(if found then Some(s.desks[req.bot].bot) else None, Declined)))]
  {
    WholeIsCrashFree(p, req);
    if !Finds(s, req) {
      FindsNothing(s, p, req);
      NothingWritten(s, req, BotReceipt(None, Declined), u, req.bot);
    } else if s.desks[req.bot].bot.status in {PAUSED, STOPPED} {
      FindsItsBot(s, p, req, Drop, BotReceipt(None, Deleted));
      RowDropped(s, req, BotReceipt(None, Deleted), u);
    } else {
      var receipt := BotReceipt(Some(s.desks[req.bot].bot), Declined);
      FindsItsBot(s, p, req, NoWrite, receipt);
      NothingWritten(s, req, receipt, u, req.bot);
    }
  }

  /** Creation: the row and the answer of `BotService.CreateBot`. */
  lemma ServiceCreationIsAProtocolRun(s: Sys, p: Pid, req: Request, u: Sys)
    requires Novel(s, p, req) && req.Open? && req.bot !in s.hist && req.bot !in s.locks
    requires u == Protocol.Run(s, Whole(p, req))
    ensures CrashFree(Whole(p, req)) && OnlyKeyAndBot(s, u, req.bot)
    ensures var bot := Bot(req.user, req.symbol, SIMULATION, PAUSED, 0.0, req.target);
            && u.desks == s.desks[req.bot := Desk(bot, SimulationLedger.Ledger(req.capital, req.capital, []))]
            && u.keys == s.keys[KeyId(req.user, CreateBot, Client(req.text)) :=
                                Row(OpenPayload(req.symbol, req.target), Some(BotReceipt(Some(bot), Now(PAUSED))))]
  {
    var c := Claiming(s, p, req);
    WholeIsCrashFree(p, req);
    assert In(c, p, Claimed);
    var d := NewDesk(req.user, req.symbol, req.target, req.capital);
    RunsAtOnce(s, p, req, s.locks[req.bot := p], Create, BotReceipt(Some(d.bot), Now(PAUSED)), c);
  }

  // ---- Orders placed by hand ------------------------------------------------------------------------------

  type World = OrderService.World

  function SubmissionFor(req: Request): OrderService.Submission
    requires req.PlaceOrder?
  {
    OrderService.Submission(req.symbol, req.side, req.orderType, req.quantity, req.price)
  }

  function OrderCall(s: Sys, req: Request): Call
    requires req.PlaceOrder?
  {
    Call(|s.calls|, OuterId(req), if req.side == "BUY" then BUY else SELL, req.quantity)
  }

  /** `t` is `s` plus a session that places this order; its key is claimed and unanswered. */
  ghost predicate Placing(s: Sys, t: Sys, p: Pid, req: Request, phase: Phase) {
    && t.keys == s.keys && t.desks == s.desks && t.hist == s.hist && t.locks == s.locks
    && t.sessions == s.sessions[p :=
        Session(req, phase, None, if phase in {Sent, Doubtful} then Some(|s.calls|) else None,
                                             NoWrite, Fresh)]
    && t.owners == s.owners[OuterId(req) := p] && t.drafts == s.drafts[OuterId(req) := Row(PayloadOf(req), None)]
  }

  /** The order ended with this answer under its key, and nothing else of the database has changed. */
  ghost predicate Placed(s: Sys, u: Sys, req: Request, answer: Option<Receipt>) {
    && u.keys == s.keys[OuterId(req) := Row(PayloadOf(req), answer)]
    && u.desks == s.desks && u.hist == s.hist
    && u.sessions == s.sessions && u.owners == s.owners && u.drafts == s.drafts && u.locks == s.locks
  }

  /** `f` is a session that finished placing its order; it commits. */
  lemma OrderCommits(s: Sys, p: Pid, req: Request, answer: Option<Receipt>, f: Sys, u: Sys)
    requires Novel(s, p, req) && req.PlaceOrder? && In(f, p, Finished) && u == Next(f, Commit(p))
    requires f.sessions == s.sessions[p := f.sessions[p]] && f.sessions[p].write == NoWrite
    requires f.keys == s.keys && f.desks == s.desks && f.hist == s.hist && f.locks == s.locks
    requires f.owners == s.owners[OuterId(req) := p]
    requires f.drafts == s.drafts[OuterId(req) := Row(PayloadOf(req), answer)]
    ensures Placed(s, u, req, answer) && SameExchange(f, u)
  {
    var id, row := OuterId(req), Row(PayloadOf(req), answer);
    NewcomerHoldsNothingYet(s, p);
    CommitHappens(f, p);
    CommitStores(f, p, u);
    OneKeyIsKept(s, f, p, id, row);
    OwnKeysAreFreed(s.owners, p, id, id);
    SessionIsGone(s.sessions, p, f.sessions[p]);
    KeyIsAdded(s.keys, id, row);
    assert OthersLocks(s.locks, p) == s.locks;
  }

  function WithAnswer(drafts: map<KeyId, KeyRow>, id: KeyId, answer: Option<Receipt>): map<KeyId, KeyRow> {
    if answer.Some? then Finalized(drafts, id, answer.value) else drafts
  }

  lemma OrderFinishes(s: Sys, p: Pid, req: Request, t: Sys, phase: Phase, answer: Option<Receipt>, f: Sys)
    requires req.PlaceOrder? && Placing(s, t, p, req, phase)
    requires f == Finish(t, p, NoWrite, WithAnswer(t.drafts, OuterId(req), answer))
    ensures In(f, p, Finished) && f.sessions == s.sessions[p := f.sessions[p]] && f.sessions[p].write == NoWrite
    ensures f.keys == s.keys && f.desks == s.desks && f.hist == s.hist && f.locks == s.locks && SameExchange(t, f)
    ensures f.owners == s.owners[OuterId(req) := p] && f.drafts == s.drafts[OuterId(req) := Row(PayloadOf(req), answer)]
  {
  }

  /** One step that ends the placing session, and the commit. */
  lemma OrderEndsHere(s: Sys, p: Pid, req: Request, t: Sys, phase: Phase, answer: Option<Receipt>, step: Step)
    returns (steps: seq<Step>)
    requires Novel(s, p, req) && req.PlaceOrder? && Placing(s, t, p, req, phase) && !step.Crash?
    requires Next(t, step) == Finish(t, p, NoWrite, WithAnswer(t.drafts, OuterId(req), answer))
    ensures CrashFree(steps) && Placed(s, Protocol.Run(t, steps), req, answer)
    ensures Protocol.Run(t, steps).calls == t.calls
  {
    steps := [step, Commit(p)];
    RunOfTwo(t, step, Commit(p));
    OrderFinishes(s, p, req, t, phase, answer, Next(t, step));
    OrderCommits(s, p, req, answer, Next(t, step), Next(Next(t, step), Commit(p)));
  }

  lemma PrependToOrder(s: Sys, req: Request, t: Sys, step: Step, rest: seq<Step>, answer: Option<Receipt>)
    returns (steps: seq<Step>)
    requires !step.Crash? && CrashFree(rest) && Placed(s, Protocol.Run(Next(t, step), rest), req, answer)
    ensures CrashFree(steps) && Placed(s, Protocol.Run(t, steps), req, answer)
    ensures Protocol.Run(t, steps).calls == Protocol.Run(Next(t, step), rest).calls
  {
    steps := [step] + rest;
    RunAfter(t, step, rest);
  }

  function OrderVerdict(o: OrderService.Submission, w: World): GateVerdict {
    if !w.permitted then Off else if !OrderService.Spelled(o) then Misspelled
    else match OrderService.GateOf(o, w) case Stops => GateVerdict.Refuse case Breaks => Break case Passes => Pass
  }

  lemma OrderGate(s: Sys, p: Pid, req: Request, w: World, t: Sys)
    requires req.PlaceOrder? && Placing(s, t, p, req, Claimed) && !OrderVerdict(SubmissionFor(req), w).Pass?
    ensures var answer := OrderService.AnswerTo(SubmissionFor(req), w);
            Next(t, Gate(p, OrderVerdict(SubmissionFor(req), w)))
            == Finish(t, p, NoWrite, WithAnswer(t.drafts, OuterId(req), answer))
  {
    assert Enabled(t, Gate(p, OrderVerdict(SubmissionFor(req), w)));
  }

  lemma OrderPasses(s: Sys, p: Pid, req: Request, w: World, t: Sys, u: Sys)
    requires req.PlaceOrder? && Placing(s, t, p, req, Claimed) && SameExchange(s, t)
    requires OrderVerdict(SubmissionFor(req), w).Pass?
    requires req.quantity > 0.0 && u == Next(t, Gate(p, Pass))
    ensures Placing(s, u, p, req, Sent) && u.calls == s.calls + [OrderCall(s, req)] && u.book == s.book
    ensures u.fate == s.fate
  {
    assert Enabled(t, Gate(p, Pass));
    assert u.sessions == s.sessions[p := Session(req, Sent, None, Some(|s.calls|), NoWrite, Fresh)];
  }

  /** The session waits for an answer about its call. */
  ghost predicate OrderWaits(s: Sys, t: Sys, p: Pid, req: Request, confirm: bool) {
    req.PlaceOrder? && Placing(s, t, p, req, Waiting(confirm)) && t.calls == s.calls + [OrderCall(s, req)]
  }

  lemma OrderHears(s: Sys, t: Sys, p: Pid, req: Request, confirm: bool, heard: Heard, answer: Receipt)
    requires OrderWaits(s, t, p, req, confirm) && (heard.Failure? ==> confirm)
    requires answer == OrderReceipt(if heard.Ack? then heard.status else OrderStatus.FAILED)
    requires heard.Ack? ==> OrderCall(s, req) in t.book && Reportable(heard.status, OuterId(req), t.fate)
    ensures Next(t, Hearing(p, confirm, heard)) == Finish(t, p, NoWrite, Finalized(t.drafts, OuterId(req), answer))
  {
    assert t.calls[|s.calls|] == OrderCall(s, req);
    assert Enabled(t, Hearing(p, confirm, heard));
  }

  lemma OrderDoubts(s: Sys, t: Sys, p: Pid, req: Request, u: Sys)
    requires OrderWaits(s, t, p, req, false) && u == Next(t, Reply(p, Failure))
    ensures OrderWaits(s, u, p, req, true) && u.book == t.book && u.fate == t.fate
  {
    assert Enabled(t, Reply(p, Failure)) && u == At(t, p, Doubtful);
    assert u.sessions == s.sessions[p := Session(req, Doubtful, None, Some(|s.calls|), NoWrite, Fresh)];
  }

  function OrderFate(req: Request, status: OrderStatus): Fate
    requires req.PlaceOrder?
  {
    Fate(if IsTerminal(status) then status else NEW, if status == FILLED then req.quantity else 0.0)
  }

  lemma OrderArrives(s: Sys, t: Sys, p: Pid, req: Request, confirm: bool, status: OrderStatus, u: Sys)
    requires OrderWaits(s, t, p, req, confirm) && OuterId(req) !in t.fate && req.quantity > 0.0
    requires status != OrderStatus.FAILED
    requires u == Next(t, Accept(|s.calls|, OrderFate(req, status)))
    ensures OrderWaits(s, u, p, req, confirm) && OrderCall(s, req) in u.book && Reportable(status, OuterId(req), u.fate)
  {
    assert t.calls[|s.calls|] == OrderCall(s, req);
    assert u == t.(book := t.book + [OrderCall(s, req)], fate := t.fate[OuterId(req) := OrderFate(req, status)]);
  }

  /** The order is accepted and its status gets through, at once or when asked again. */
  lemma OrderToldRun(s: Sys, p: Pid, req: Request, t: Sys, confirm: bool, status: OrderStatus)
    returns (steps: seq<Step>)
    requires Novel(s, p, req) && OrderWaits(s, t, p, req, confirm) && OuterId(req) !in t.fate
    requires req.quantity > 0.0 && status != OrderStatus.FAILED
    ensures CrashFree(steps) && Placed(s, Protocol.Run(t, steps), req, Some(OrderReceipt(status)))
    ensures Protocol.Run(t, steps).calls == t.calls
  {
    var accept := Accept(|s.calls|, OrderFate(req, status));
    var u := Next(t, accept);
    OrderArrives(s, t, p, req, confirm, status, u);
    OrderHears(s, u, p, req, confirm, Ack(status), OrderReceipt(status));
    steps := OrderEndsHere(s, p, req, u, Waiting(confirm), Some(OrderReceipt(status)),
                           Hearing(p, confirm, Ack(status)));
    steps := PrependToOrder(s, req, t, accept, steps, Some(OrderReceipt(status)));
  }

  lemma OrderStatuses(o: OrderService.Submission, w: World)
    requires OrderService.Calls(o, w)
    ensures var status := OrderService.RowAfter(o, w).status;
            status != OrderStatus.FAILED
            <==> (w.created.Ok? && WellFormed(w.created.value))
                 || (w.created.BinanceFailure? && w.confirmed.Ok? && WellFormed(w.confirmed.value))
  {
  }

  /** From the call to the commit. */
  lemma OrderSentRun(s: Sys, p: Pid, req: Request, w: World, t: Sys) returns (steps: seq<Step>)
    requires Novel(s, p, req) && OrderWaits(s, t, p, req, false) && OuterId(req) !in t.fate && req.quantity > 0.0
    requires OrderService.Calls(SubmissionFor(req), w)
    ensures CrashFree(steps) && Protocol.Run(t, steps).calls == t.calls
    ensures Placed(s, Protocol.Run(t, steps), req,
                   Some(OrderReceipt(OrderService.RowAfter(SubmissionFor(req), w).status)))
  {
    var status := OrderService.RowAfter(SubmissionFor(req), w).status;
    OrderStatuses(SubmissionFor(req), w);
    if w.created.Ok? && WellFormed(w.created.value) {
      steps := OrderToldRun(s, p, req, t, false, status);
    } else if w.created.BinanceFailure? {
      var doubted := Next(t, Reply(p, Failure));
      OrderDoubts(s, t, p, req, doubted);
      if status != OrderStatus.FAILED {
        steps := OrderToldRun(s, p, req, doubted, true, status);
      } else {
        var heard := if w.confirmed.BinanceFailure? then Failure else Garbled;
        OrderHears(s, doubted, p, req, true, heard, OrderReceipt(status));
        steps := OrderEndsHere(s, p, req, doubted, Doubtful, Some(OrderReceipt(status)), Confirm(p, heard));
      }
      steps := PrependToOrder(s, req, t, Reply(p, Failure), steps, Some(OrderReceipt(status)));
    } else {
      OrderHears(s, t, p, req, false, Garbled, OrderReceipt(status));
      steps := OrderEndsHere(s, p, req, t, Sent, Some(OrderReceipt(status)), Reply(p, Garbled));
    }
  }

  /** From any orderly state in which the order's id is not known to the exchange. */
  lemma NovelOrderIsARun(s: Sys, p: Pid, req: Request, w: World) returns (steps: seq<Step>)
    requires Novel(s, p, req) && req.PlaceOrder? && OuterId(req) !in s.fate
    ensures CrashFree(steps)
    ensures Placed(s, Protocol.Run(s, steps), req, OrderService.AnswerTo(SubmissionFor(req), w))
    ensures Protocol.Run(s, steps).calls
         == if OrderService.Calls(SubmissionFor(req), w) then s.calls + [OrderCall(s, req)] else s.calls
  {
    var o, c := SubmissionFor(req), Claiming(s, p, req);
    NovelClaims(s, p, req);
    var verdict := OrderVerdict(o, w);
    if verdict.Pass? {
      OrderService.GatePassesExactlyWithinRulesAndLimits(o, w);
      var t := Next(c, Gate(p, Pass));
      OrderPasses(s, p, req, w, c, t);
      steps := OrderSentRun(s, p, req, w, t);
      steps := PrependToOrder(s, req, c, Gate(p, Pass), steps, OrderService.AnswerTo(o, w));
    } else {
      OrderGate(s, p, req, w, c);
      steps := OrderEndsHere(s, p, req, c, Claimed, OrderService.AnswerTo(o, w), Gate(p, verdict));
    }
    steps := PrependToOrder(s, req, Next(s, Begin(p, req)), Reserve(p), steps, OrderService.AnswerTo(o, w));
    steps := PrependToOrder(s, req, s, Begin(p, req), steps, OrderService.AnswerTo(o, w));
  }

  /** An order placed by hand, or the SELL that closes a position, after any run that keeps the calls under its
      id: whatever it hears, one session alone stores the answer and makes the call that
      `OrderService.Executed` promises. */
  lemma ServiceOrderIsAProtocolRun(steps: seq<Step>, p: Pid, req: Request, w: World, s: Sys) returns (more: seq<Step>)
    requires s == Reached(steps) && Novel(s, p, req) && req.PlaceOrder? && KeepsCalls(steps, OuterId(req))
    ensures CrashFree(more)
    ensures OuterId(req) == KeyId(req.user, if req.close then ClosePosition else Orders, Client(req.text))
    ensures PayloadOf(req) == if req.close then ClosePayload(req.symbol, req.quantity)
                              else OrderPayload(req.symbol, req.side, req.orderType, req.quantity, req.price)
    ensures Placed(s, Protocol.Run(s, more), req, OrderService.AnswerTo(SubmissionFor(req), w))
    ensures Protocol.Run(s, more).calls
         == if OrderService.Calls(SubmissionFor(req), w) then s.calls + [OrderCall(s, req)] else s.calls
  {
    RunsAreRecorded(steps);
    RunsCallOnce(steps, OuterId(req));
    FreeKeyIsUnknown(s, OuterId(req));
    more := NovelOrderIsARun(s, p, req, w);
  }
}
