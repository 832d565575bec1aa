/** Every claimed key is answered once, and the answer is permanent. */
module ProtocolAnswers {
  import opened Common
  import opened Idempotency
  import opened BotMachine
  import opened Requests
  import opened Protocol
  import SimulationLedger
  import opened ProtocolSafety
  import opened ProtocolCalls
  import opened ProtocolTrading
  import opened ProtocolTheorems

  type Drafts = map<KeyId, KeyRow>

  // ---- Claimed keys and their answers -------------------------------------------------------------

  /** The three ways a key can be committed unanswered: a simulated order raised, the transition heard
      a malformed reply outside the guarded region, or the side or type of an order is unknown. */
  ghost predicate Excused(id: KeyId, n: Session) {
    id.endpoint.SimulationOrders? || (n.write.Put? && IsMalformed(n.write.event)) || Misspells(n.req)
  }

  /** Which keys a session owns in its phase, what they say it asked for, and which of them are answered. */
  ghost predicate DraftFits(id: KeyId, n: Session, row: KeyRow) {
    && (if id.key.Inner? then
          && n.req.Transition? && n.row.Some? && n.phase !in {Claimed, Holding}
          && id == InnerId(n.req, n.row.value.bot.mode)
          && row.payload == InnerPayload(n.req.op, n.req.bot, n.row.value.bot)
        else id == OuterId(n.req) && row.payload == PayloadOf(n.req))
    && (if n.phase == Finished then row.response.None? ==> Excused(id, n)
        else if n.phase == Unsettled then row.response.Some? <==> id.key.Inner?
        else row.response.None?)
  }

  ghost predicate Answers(s: Sys) {
    forall id :: id in s.owners && s.owners[id] in s.sessions && id in s.drafts ==>
      DraftFits(id, s.sessions[s.owners[id]], s.drafts[id])
  }

  /** One session's step: its own keys fit its new phase, an answer is never rewritten,
      and nobody else's key is touched. */
  ghost predicate Moves(s: Sys, t: Sys, p: Pid) {
    && p in s.sessions && p in t.sessions && t.sessions == s.sessions[p := t.sessions[p]]
    && t.owners == s.owners && t.drafts.Keys == s.drafts.Keys
    && forall id :: id in s.owners && id in s.drafts ==> DraftMoves(id, s, t, p)
  }

  ghost predicate DraftMoves(id: KeyId, s: Sys, t: Sys, p: Pid)
    requires id in s.owners && id in s.drafts && id in t.drafts && p in t.sessions
  {
    && (s.drafts[id].response.Some? ==> t.drafts[id] == s.drafts[id])
    && (if s.owners[id] == p then DraftFits(id, t.sessions[p], t.drafts[id]) else t.drafts[id] == s.drafts[id])
  }

  lemma MovesKeepAnswers(s: Sys, t: Sys, p: Pid)
    requires Answers(s) && Moves(s, t, p)
    ensures Answers(t)
  {
    forall id | id in t.owners && t.owners[id] in t.sessions && id in t.drafts
      ensures DraftFits(id, t.sessions[t.owners[id]], t.drafts[id])
    {
      assert DraftMoves(id, s, t, p);
    }
  }

  /** A claimed key that a session's request could have claimed is its own. */
  lemma MineIsOwned(s: Sys, p: Pid, id: KeyId)
    requires Orderly(s) && p in s.sessions && id in s.owners && OwnedBy(s.owners, OuterId(s.sessions[p].req), p)
    requires id == OuterId(s.sessions[p].req)
          || (s.sessions[p].req.Transition?
              && id in {InnerId(s.sessions[p].req, LIVE), InnerId(s.sessions[p].req, SIMULATION)})
    ensures s.owners[id] == p
  {
    var q := s.owners[id];
    assert DraftOk(id, s.owners, s.keys, s.sessions);
    if id.key.Inner? {
      assert OuterOf(id) == OuterId(s.sessions[p].req) == OuterId(s.sessions[q].req);
    }
  }

  lemma OwnsOuter(s: Sys, p: Pid)
    requires Orderly(s) && p in s.sessions && s.sessions[p].phase !in {Starting, Finished}
    ensures OwnedBy(s.owners, OuterId(s.sessions[p].req), p) && OuterId(s.sessions[p].req) in s.drafts
  {
    SessionFacts(s, p);
    assert OuterId(s.sessions[p].req) in s.owners.Keys;
  }

  lemma DraftFacts(s: Sys, id: KeyId)
    requires Orderly(s) && Answers(s) && id in s.owners
    ensures id in s.drafts && s.owners[id] in s.sessions
    ensures DraftFits(id, s.sessions[s.owners[id]], s.drafts[id]) && s.sessions[s.owners[id]].phase != Starting
  {
    assert id in s.owners.Keys;
    assert DraftOk(id, s.owners, s.keys, s.sessions);
  }

  // ---- What the ends of a session store -----------------------------------------------------------------

  /** What the step of a session that was `n` and becomes `m` may do to one row. */
  ghost predicate RowMoves(id: KeyId, n: Session, m: Session, row: KeyRow, row': KeyRow) {
    && (!Mine(n.req, id) ==> row' == row)
    && (DraftFits(id, n, row) ==> (row.response.Some? ==> row' == row) && DraftFits(id, m, row'))
  }

  lemma EndMoves(s: Sys, t: Sys, p: Pid)
    requires Orderly(s) && Answers(s) && Local(s, t, p) && t.drafts.Keys == s.drafts.Keys
    requires s.sessions[p].phase !in {Starting, Finished}
    requires forall id :: id in s.drafts ==> RowMoves(id, s.sessions[p], t.sessions[p], s.drafts[id], t.drafts[id])
    ensures Moves(s, t, p)
  {
    OwnsOuter(s, p);
    forall id | id in s.owners && id in s.drafts ensures DraftMoves(id, s, t, p) {
      OneRowMoves(s, t, p, id);
    }
  }

  lemma OneRowMoves(s: Sys, t: Sys, p: Pid, id: KeyId)
    requires Orderly(s) && Answers(s) && p in s.sessions && p in t.sessions && id in s.owners && id in s.drafts
    requires id in t.drafts
    requires OwnedBy(s.owners, OuterId(s.sessions[p].req), p)
    requires RowMoves(id, s.sessions[p], t.sessions[p], s.drafts[id], t.drafts[id])
    ensures DraftMoves(id, s, t, p)
  {
    DraftFacts(s, id);
    if Mine(s.sessions[p].req, id) {
      MineIsOwned(s, p, id);
    } else {
      NotMineIsNotOwned(s, p, id);
    }
  }

  lemma NotMineIsNotOwned(s: Sys, p: Pid, id: KeyId)
    requires Orderly(s) && p in s.sessions && id in s.owners && !Mine(s.sessions[p].req, id)
    ensures s.owners[id] != p
  {
    assert DraftOk(id, s.owners, s.keys, s.sessions);
  }

  lemma LiveDraftsFacts(drafts: Drafts, req: Request, bot: Bot, outcome: Outcome, returned: Option<OrderStatus>,
                        id: KeyId)
    requires req.Transition? && id in drafts
    ensures var after := LiveDrafts(drafts, req, bot, outcome, returned);
            && after[id].payload == drafts[id].payload
            && (id != OuterId(req) && id != InnerId(req, LIVE) ==> after[id] == drafts[id])
            && (id == OuterId(req) && !outcome.Malformed? ==> after[id].response.Some?)
            && (id == OuterId(req) && outcome.Malformed? ==> after[id] == drafts[id])
            && (id == InnerId(req, LIVE) && returned.Some? ==> after[id].response.Some?)
            && (id == InnerId(req, LIVE) && returned.None? ==> after[id] == drafts[id])
  {
  }

  lemma LiveRowMoves(drafts: Drafts, id: KeyId, n: Session, m: Session, bot: Bot, outcome: Outcome,
                     returned: Option<OrderStatus>)
    requires id in drafts && n.req.Transition? && n.row.Some? && n.row.value.bot.mode == LIVE
    requires n.phase in if returned.None? then {Holding, Unsettled} else {Keyed, Sent, Doubtful}
    requires m.req == n.req && m.row == n.row && m.phase == Finished
    requires m.write.Put? && m.write.event == LiveTransition(n.req.op, outcome)
    ensures RowMoves(id, n, m, drafts[id], LiveDrafts(drafts, n.req, bot, outcome, returned)[id])
  {
    LiveDraftsFacts(drafts, n.req, bot, outcome, returned, id);
  }

  /** A live transition ends: the client's key is answered unless the reply was malformed,
      the derived one if `create_order` just returned; both were unanswered before. */
  lemma LiveEndMoves(s: Sys, p: Pid, outcome: Outcome, returned: Option<OrderStatus>)
    requires Orderly(s) && Answers(s) && Moving(s, p) && s.sessions[p].row.value.bot.mode == LIVE
    requires s.sessions[p].phase in if returned.None? then {Holding, Unsettled} else {Keyed, Sent, Doubtful}
    ensures Moves(s, FinishLive(s, p, outcome, returned), p)
  {
    var n, t := s.sessions[p], FinishLive(s, p, outcome, returned);
    var desk := BotMachine.Step(n.row.value, LiveTransition(n.req.op, outcome));
    forall id | id in s.drafts ensures RowMoves(id, n, t.sessions[p], s.drafts[id], t.drafts[id]) {
      LiveRowMoves(s.drafts, id, n, t.sessions[p], desk.bot, outcome, returned);
    }
    EndMoves(s, t, p);
  }

  lemma OrderEndMoves(s: Sys, p: Pid, status: OrderStatus)
    requires Orderly(s) && Answers(s) && p in s.sessions && s.sessions[p].req.PlaceOrder?
    requires s.sessions[p].phase in {Claimed, Sent, Doubtful}
    ensures Moves(s, FinishOrder(s, p, status), p)
  {
    EndMoves(s, FinishOrder(s, p, status), p);
  }

  /** The enum conversion raised: the key stays as it was claimed. */
  lemma MisspelledMoves(s: Sys, p: Pid)
    requires Orderly(s) && Answers(s) && In(s, p, Claimed) && Misspells(s.sessions[p].req)
    ensures Moves(s, Finish(s, p, NoWrite, s.drafts), p)
  {
    EndMoves(s, Finish(s, p, NoWrite, s.drafts), p);
  }

  /** A session calls, or goes on waiting for an answer about its call. */
  lemma WaitingMoves(s: Sys, t: Sys, p: Pid, phase: Phase)
    requires Orderly(s) && Answers(s) && p in s.sessions && s.sessions[p].phase in {Claimed, Keyed, Sent}
    requires phase in {Sent, Doubtful}
    requires p in t.sessions
    requires t.sessions == s.sessions[p := s.sessions[p].(phase := phase, call := t.sessions[p].call)]
    requires t.owners == s.owners && t.drafts == s.drafts
    ensures Moves(s, t, p)
  {
    OwnsOuter(s, p);
    forall id | id in s.owners && id in s.drafts ensures DraftMoves(id, s, t, p) {
      DraftFacts(s, id);
    }
  }

  lemma OpenRowMoves(drafts: Drafts, id: KeyId, n: Session, m: Session, status: OrderStatus)
    requires id in drafts && n.req.Transition? && n.row.Some? && n.row.value.bot.mode == LIVE
    requires n.phase in {Sent, Doubtful}
    requires m == n.(phase := Unsettled)
    ensures RowMoves(id, n, m, drafts[id], Finalized(drafts, InnerId(n.req, LIVE), OrderReceipt(status))[id])
  {
  }

  lemma OpensMoves(s: Sys, p: Pid, status: OrderStatus)
    requires Orderly(s) && Answers(s) && Moving(s, p) && s.sessions[p].phase in {Sent, Doubtful}
    requires s.sessions[p].row.value.bot.mode == LIVE
    ensures var drafts := Finalized(s.drafts, InnerId(s.sessions[p].req, LIVE), OrderReceipt(status));
            Moves(s, At(s.(drafts := drafts), p, Unsettled), p)
  {
    var n := s.sessions[p];
    var drafts := Finalized(s.drafts, InnerId(n.req, LIVE), OrderReceipt(status));
    var t := At(s.(drafts := drafts), p, Unsettled);
    forall id | id in s.drafts ensures RowMoves(id, n, t.sessions[p], s.drafts[id], t.drafts[id]) {
      OpenRowMoves(s.drafts, id, n, t.sessions[p], status);
    }
    EndMoves(s, t, p);
  }

  lemma LearnMoves(s: Sys, p: Pid, status: OrderStatus)
    requires Orderly(s) && Answers(s) && Knows(s, p) && s.sessions[p].phase in {Sent, Doubtful}
    ensures Moves(s, Learn(s, p, status), p)
  {
    CallerFacts(s, p);
    if !s.sessions[p].req.Transition? {
      OrderEndMoves(s, p, status);
    } else if status in {NEW, PARTIALLY_FILLED} {
      OpensMoves(s, p, status);
    } else {
      LiveEndMoves(s, p, OutcomeOfStatus(status), Some(status));
    }
  }

  lemma SafetyNetMoves(s: Sys, p: Pid)
    requires Orderly(s) && Answers(s) && Knows(s, p)
    requires if s.sessions[p].req.Transition? then
               s.sessions[p].phase in {Keyed, Sent, Doubtful} && s.sessions[p].row.value.bot.mode == LIVE
             else s.sessions[p].req.PlaceOrder? && s.sessions[p].phase in {Claimed, Sent, Doubtful}
    ensures Moves(s, SafetyNet(s, p), p)
  {
    if s.sessions[p].req.Transition? {
      LiveEndMoves(s, p, Outcome.Raised, Some(OrderStatus.FAILED));
    } else {
      OrderEndMoves(s, p, OrderStatus.FAILED);
    }
  }

  lemma GateMoves(s: Sys, p: Pid, verdict: GateVerdict)
    requires Orderly(s) && Answers(s) && Enabled(s, Gate(p, verdict))
    ensures Moves(s, ApplyGate(s, p, verdict), p)
  {
    match verdict
    case Pass => WaitingMoves(s, ApplyGate(s, p, verdict), p, Sent);
    case Break => SafetyNetMoves(s, p);
    case Misspelled => MisspelledMoves(s, p);
    case _ =>
      if s.sessions[p].req.Transition? {
        LiveEndMoves(s, p, if verdict.Off? then Disabled else Outcome.Rejected, Some(OrderStatus.REJECTED));
      } else {
        OrderEndMoves(s, p, OrderStatus.REJECTED);
      }
  }

  lemma HearingMoves(s: Sys, step: Step)
    requires Orderly(s) && Answers(s) && Enabled(s, step) && (step.Reply? || step.Confirm? || step.Reconcile?)
    ensures Moves(s, Apply(s, step), step.p)
  {
    var p := step.p;
    CallerFacts(s, p);
    if step.Reconcile? {
      LiveEndMoves(s, p, if step.heard.Ack? then OutcomeOfStatus(step.heard.status)
                         else if step.heard.Failure? then Unresolved else Malformed, None);
    } else if step.heard.Garbled? {
      SafetyNetMoves(s, p);
    } else if step.Confirm? {
      LearnMoves(s, p, if step.heard.Ack? then step.heard.status else OrderStatus.FAILED);
    } else if step.heard.Ack? {
      LearnMoves(s, p, step.heard.status);
    } else {
      WaitingMoves(s, At(s, p, Doubtful), p, Doubtful);
    }
  }

  lemma SimulatedRowMoves(id: KeyId, n: Session, m: Session, drafts: Drafts, raised: bool, status: OrderStatus,
                          receipt: Receipt)
    requires id in drafts && n.req.Transition? && n.row.Some? && n.row.value.bot.mode == SIMULATION && n.phase == Keyed
    requires m.req == n.req && m.row == n.row && m.phase == Finished
    ensures var inner := if raised then drafts else Finalized(drafts, InnerId(n.req, SIMULATION), OrderReceipt(status));
            RowMoves(id, n, m, drafts[id], Finalized(inner, OuterId(n.req), receipt)[id])
  {
  }

  /** A simulated transition answers the client's key always, its own unless it raised. */
  lemma SimulateMoves(s: Sys, p: Pid, market: SimulationLedger.Market, t: Sys)
    requires Orderly(s) && Answers(s) && Enabled(s, Simulate(p, market)) && t == ApplySimulate(s, p, market)
    ensures Moves(s, t, p)
  {
    var n := s.sessions[p];
    var outcome := OutcomeOf(AttemptOf(n.row.value, n.req.op, market));
    var bot := BotMachine.Step(n.row.value, SimTransition(n.req.op, market)).bot;
    forall id | id in s.drafts ensures RowMoves(id, n, t.sessions[p], s.drafts[id], t.drafts[id]) {
      SimulatedRowMoves(id, n, t.sessions[p], s.drafts, outcome.Raised?, SimulatedStatus(outcome),
                        BotReceipt(Some(bot), ReplyOf(bot, outcome)));
    }
    EndMoves(s, t, p);
  }

  /** Loading a bot's row answers the client's key, unless a transition goes on. */
  lemma LandingMoves(s: Sys, p: Pid, l: Landing, t: Sys)
    requires Orderly(s) && Answers(s) && In(s, p, Claimed) && t == Land(s, p, l)
    requires if l.phase == Finished then l.receipt.Some? else l.phase == Holding && l.receipt.None?
    ensures Moves(s, t, p)
  {
    LandShape(s, p, l, t);
    OwnsOuter(s, p);
    forall id | id in s.owners && id in s.drafts ensures DraftMoves(id, s, t, p) {
      DraftFacts(s, id);
      if id == OuterId(s.sessions[p].req) {
        MineIsOwned(s, p, id);
      }
    }
  }

  lemma LandingAnswers(req: Request, desk: Desk)
    requires !req.PlaceOrder? && !req.Open?
    ensures var l := LandingOf(req, desk);
            if l.phase == Finished then l.receipt.Some? else l.phase == Holding && l.receipt.None?
  {
  }

  /** Locks play no part in what the keys say. */
  lemma LockingMoves(s: Sys, p: Pid, l: Landing, t: Sys, locked: Sys)
    requires p in s.sessions && locked == s.(locks := locked.locks) && t == Land(locked, p, l)
    requires Moves(s, Land(s, p, l), p)
    ensures Moves(s, t, p)
  {
    var u := Land(s, p, l);
    assert t.sessions == u.sessions && t.drafts == u.drafts;
    forall id | id in s.owners && id in s.drafts ensures DraftMoves(id, s, t, p) {
      assert DraftMoves(id, s, u, p);
    }
  }

  lemma LoadMoves(s: Sys, p: Pid)
    requires Orderly(s) && Answers(s) && Enabled(s, Load(p))
    ensures Moves(s, ApplyLoad(s, p), p)
  {
    var req, t := s.sessions[p].req, ApplyLoad(s, p);
    var locked := s.(locks := s.locks[req.bot := p]);
    var l := if req.Open? then
               Ending(Create, BotReceipt(Some(NewDesk(req.user, req.symbol, req.target, req.capital).bot), Now(PAUSED)))
             else if Finds(s, req) then LandingOf(req, s.desks[req.bot])
             else Ending(NoWrite, BotReceipt(None, Declined));
    if !req.Open? && Finds(s, req) {
      LandingAnswers(req, s.desks[req.bot]);
    }
    LandingMoves(s, p, l, Land(s, p, l));
    if req.Open? || Finds(s, req) {
      LockingMoves(s, p, l, t, locked);
    }
  }

  // ---- Steps that change who owns what ------------------------------------------------------------------------

  lemma ClaimAnswers(s: Sys, p: Pid, id: KeyId, payload: Payload, phase: Phase, t: Sys)
    requires Orderly(s) && Answers(s) && p in s.sessions && id !in s.owners
    requires t == At(Claim(s, p, id, payload), p, phase)
    requires DraftFits(id, s.sessions[p].(phase := phase), Row(payload, None))
    requires forall i :: i in s.owners && s.owners[i] == p && i in s.drafts ==>
               DraftFits(i, s.sessions[p].(phase := phase), s.drafts[i])
    ensures Answers(t) && forall i :: i in s.drafts ==> i in t.drafts && t.drafts[i] == s.drafts[i]
  {
    ClaimShape(s, p, id, payload, phase, t);
    forall i | i in s.drafts ensures i in t.drafts && t.drafts[i] == s.drafts[i] {
      assert i in s.owners.Keys;
    }
    forall i | i in t.owners && t.owners[i] in t.sessions && i in t.drafts
      ensures DraftFits(i, t.sessions[t.owners[i]], t.drafts[i])
    {
      if i != id {
        DraftFacts(s, i);
      }
    }
  }

  lemma ReserveAnswers(s: Sys, p: Pid)
    requires Orderly(s) && Answers(s) && Enabled(s, Reserve(p))
    ensures Answers(ApplyReserve(s, p))
    ensures forall i :: i in s.drafts ==> i in ApplyReserve(s, p).drafts && ApplyReserve(s, p).drafts[i] == s.drafts[i]
  {
    var n, t := s.sessions[p], ApplyReserve(s, p);
    forall i | i in s.owners ensures s.owners[i] != p {
      DraftFacts(s, i);
    }
    if OuterId(n.req) in s.keys {
      forall i | i in t.owners && t.owners[i] in t.sessions && i in t.drafts
        ensures DraftFits(i, t.sessions[t.owners[i]], t.drafts[i])
      {
        DraftFacts(s, i);
      }
    } else {
      ClaimAnswers(s, p, OuterId(n.req), PayloadOf(n.req), Claimed, t);
    }
  }

  lemma ReserveInnerAnswers(s: Sys, p: Pid)
    requires Orderly(s) && Answers(s) && Enabled(s, ReserveInner(p))
    ensures var t := ApplyReserveInner(s, p);
            Answers(t) && forall i :: i in s.drafts ==> i in t.drafts && t.drafts[i] == s.drafts[i]
  {
    var n := s.sessions[p];
    var bot := n.row.value.bot;
    InnerKeyIsFresh(s, p, bot.mode);
    forall i | i in s.owners && s.owners[i] == p && i in s.drafts
      ensures DraftFits(i, n.(phase := Keyed), s.drafts[i])
    {
      DraftFacts(s, i);
    }
    ClaimAnswers(s, p, InnerId(n.req, bot.mode), InnerPayload(n.req.op, n.req.bot, bot), Keyed,
                 ApplyReserveInner(s, p));
  }

  lemma LeaveAnswers(s: Sys, p: Pid)
    requires Orderly(s) && Answers(s)
    ensures var t := Leave(s, p);
            Answers(t) && forall i :: i in t.drafts ==> i in s.drafts && t.drafts[i] == s.drafts[i]
  {
    var t := Leave(s, p);
    forall i | i in t.owners && t.owners[i] in t.sessions && i in t.drafts
      ensures DraftFits(i, t.sessions[t.owners[i]], t.drafts[i])
    {
      DraftFacts(s, i);
    }
  }

  lemma CommitAnswers(s: Sys, p: Pid)
    requires Orderly(s) && Answers(s) && Enabled(s, Commit(p))
    ensures var t := ApplyCommit(s, p);
            Answers(t) && forall i :: i in t.drafts ==> i in s.drafts && t.drafts[i] == s.drafts[i]
  {
    LeaveAnswers(s, p);
    var left, t := Leave(s, p), ApplyCommit(s, p);
    assert t.owners == left.owners && t.sessions == left.sessions && t.drafts == left.drafts;
  }

  // ---- Every run -------------------------------------------------------------------------------------------------

  /** No answer is ever overwritten while its session is open. */
  ghost predicate KeepsAnswers(s: Sys, t: Sys) {
    forall id :: id in s.drafts && id in t.drafts && s.drafts[id].response.Some? ==> t.drafts[id] == s.drafts[id]
  }

  lemma MovesAnswerOnce(s: Sys, t: Sys, p: Pid)
    requires Orderly(s) && Answers(s) && Moves(s, t, p)
    ensures Answers(t) && KeepsAnswers(s, t)
  {
    MovesKeepAnswers(s, t, p);
    forall id | id in s.drafts && id in t.drafts && s.drafts[id].response.Some? ensures t.drafts[id] == s.drafts[id] {
      assert id in s.owners.Keys;
      assert DraftMoves(id, s, t, p);
    }
  }

  lemma StepAnswersOnce(s: Sys, step: Step)
    requires Orderly(s) && Answers(s)
    ensures Answers(Next(s, step)) && KeepsAnswers(s, Next(s, step))
  {
    if Enabled(s, step) {
      match step
      case Begin(p, req) => BeginAnswers(s, p, req);
      case Reserve(p) => ReserveAnswers(s, p);
      case Load(p) => LoadMoves(s, p); MovesAnswerOnce(s, ApplyLoad(s, p), p);
      case Decline(p, garbled) =>
        LiveEndMoves(s, p, if garbled then Malformed else Outcome.Rejected, None);
        MovesAnswerOnce(s, Apply(s, step), p);
      case ReserveInner(p) => ReserveInnerAnswers(s, p);
      case Simulate(p, market) => SimulateMoves(s, p, market, Apply(s, step)); MovesAnswerOnce(s, Apply(s, step), p);
      case Gate(p, verdict) => GateMoves(s, p, verdict); MovesAnswerOnce(s, ApplyGate(s, p, verdict), p);
      case Accept(call, fate) =>
      case Evolve(cid, fate) =>
      case Reply(p, heard) => HearingMoves(s, step); MovesAnswerOnce(s, Apply(s, step), p);
      case Confirm(p, heard) => HearingMoves(s, step); MovesAnswerOnce(s, Apply(s, step), p);
      case Reconcile(p, heard) => HearingMoves(s, step); MovesAnswerOnce(s, Apply(s, step), p);
      case Commit(p) => CommitAnswers(s, p);
      case Crash(p) => LeaveAnswers(s, p);
    }
  }

  lemma BeginAnswers(s: Sys, p: Pid, req: Request)
    requires Orderly(s) && Answers(s) && Enabled(s, Begin(p, req))
    ensures Answers(Apply(s, Begin(p, req)))
  {
    var t := Apply(s, Begin(p, req));
    forall i | i in t.owners && t.owners[i] in t.sessions && i in t.drafts
      ensures DraftFits(i, t.sessions[t.owners[i]], t.drafts[i])
    {
      DraftFacts(s, i);
    }
  }

  lemma {:induction false} RunsAnswer(steps: seq<Step>)
    ensures Answers(Reached(steps))
  {
    if steps != [] {
      RunsAnswer(steps[..|steps| - 1]);
      RunsAreOrderly(steps[..|steps| - 1]);
      StepAnswersOnce(Reached(steps[..|steps| - 1]), steps[|steps| - 1]);
    }
  }

  /** An answer, once given in an open session, survives every step of the run until the
      session ends: each claimed key is finalized at most once. */
  lemma EachKeyIsAnsweredOnce(steps: seq<Step>, step: Step)
    ensures KeepsAnswers(Reached(steps), Next(Reached(steps), step))
  {
    RunsAnswer(steps);
    RunsAreOrderly(steps);
    StepAnswersOnce(Reached(steps), step);
  }

  // ---- Committed keys ----------------------------------------------------------------------------------------------

  lemma CommittedRowsStay(s: Sys, step: Step)
    requires Orderly(s)
    ensures forall id :: id in s.keys ==> id in Next(s, step).keys && Next(s, step).keys[id] == s.keys[id]
  {
    if Enabled(s, step) && step.Commit? {
      CommitShape(s, step.p);
      forall id | id in s.keys ensures id !in Kept(s, step.p) {
        assert id in s.owners ==> DraftOk(id, s.owners, s.keys, s.sessions);
        assert id in s.drafts ==> id in s.drafts.Keys;
      }
    }
  }

  /** What is committed under a key stays there in every continuation, crashes included. */
  lemma {:induction false} CommittedAnswersArePermanent(steps: seq<Step>, n: nat, id: KeyId)
    requires n <= |steps| && id in Reached(steps[..n]).keys
    ensures id in Reached(steps).keys && Reached(steps).keys[id] == Reached(steps[..n]).keys[id]
  {
    if n == |steps| {
      assert steps[..n] == steps;
    } else {
      var front := steps[..|steps| - 1];
      assert front[..n] == steps[..n];
      CommittedAnswersArePermanent(front, n, id);
      RunsAreOrderly(front);
      CommittedRowsStay(Reached(front), steps[|steps| - 1]);
    }
  }

  lemma NewcomerOwnsNothing(s: Sys, p: Pid)
    requires Orderly(s) && In(s, p, Starting)
    ensures OthersKeys(s.owners, p) == s.owners && OthersLocks(s.locks, p) == s.locks
    ensures forall id :: id in s.drafts ==> !Owns(s, p, id)
  {
    forall id | id in s.owners ensures s.owners[id] != p {
      assert DraftOk(id, s.owners, s.keys, s.sessions);
    }
    forall b | b in s.locks ensures s.locks[b] != p {
      assert LockOk(b, s.locks, s.sessions, s.desks, s.hist);
    }
  }

  lemma ReplayIsLocal(s: Sys, p: Pid, answered: Sys)
    requires Orderly(s) && In(s, p, Starting) && OuterId(s.sessions[p].req) in s.keys
    requires answered == Next(s, Reserve(p))
    ensures Enabled(s, Reserve(p)) && Enabled(answered, Commit(p))
    ensures answered == s.(sessions := s.sessions[p := answered.sessions[p]])
    ensures answered.sessions[p].write == NoWrite
    ensures var row := s.keys[OuterId(s.sessions[p].req)];
            AnswersTruly(answered.sessions[p].answer, row.payload, row.response, PayloadOf(s.sessions[p].req))
  {
    var id := OuterId(s.sessions[p].req);
    assert id in s.owners ==> DraftOk(id, s.owners, s.keys, s.sessions);
  }

  /** Committing a session that wrote nothing and owns nothing only ends it. */
  lemma EmptyCommitOnlyLeaves(s: Sys, p: Pid)
    requires Enabled(s, Commit(p)) && s.sessions[p].write == NoWrite
    requires OthersKeys(s.owners, p) == s.owners && OthersLocks(s.locks, p) == s.locks
    requires forall id :: id in s.drafts ==> !Owns(s, p, id)
    ensures ApplyCommit(s, p) == s.(sessions := s.sessions - {p})
  {
    assert Kept(s, p) == map[];
    assert Leave(s, p).drafts == s.drafts;
  }

  /** A request for a key that was committed at any earlier point is never blocked. It gets the stored
      response if it asks for the same, a conflict if not, and is told to wait exactly if there is no
      response; and once it has left, nothing has changed: no row, no key, no lock, no call. */
  lemma RepeatedRequestChangesNothing(steps: seq<Step>, n: nat, p: Pid)
    requires n <= |steps| && In(Reached(steps), p, Starting)
    requires OuterId(Reached(steps).sessions[p].req) in Reached(steps[..n]).keys
    ensures var s := Reached(steps);
            var req := s.sessions[p].req;
            var row := Reached(steps[..n]).keys[OuterId(req)];
            var answered := Next(s, Reserve(p));
            && Enabled(s, Reserve(p)) && Enabled(answered, Commit(p))
            && AnswersTruly(answered.sessions[p].answer, row.payload, row.response, PayloadOf(req))
            && Next(answered, Commit(p)) == s.(sessions := s.sessions - {p})
  {
    var s := Reached(steps);
    RunsAreOrderly(steps);
    CommittedAnswersArePermanent(steps, n, OuterId(s.sessions[p].req));
    NewcomerOwnsNothing(s, p);
    var answered := Next(s, Reserve(p));
    ReplayIsLocal(s, p, answered);
    EmptyCommitOnlyLeaves(answered, p);
    assert answered.sessions - {p} == s.sessions - {p};
  }

  /** The session is about to commit its own client key with this response. */
  ghost predicate AnswersItsClient(s: Sys, p: Pid, response: Receipt) {
    && In(s, p, Finished) && OwnedBy(s.owners, OuterId(s.sessions[p].req), p)
    && OuterId(s.sessions[p].req) in s.drafts
    && s.drafts[OuterId(s.sessions[p].req)].response == Some(response)
  }

  lemma CommitStoresTheRequest(s: Sys, p: Pid, response: Receipt)
    requires Orderly(s) && Answers(s) && AnswersItsClient(s, p, response)
    ensures var req := s.sessions[p].req;
            OuterId(req) in Next(s, Commit(p)).keys
            && Next(s, Commit(p)).keys[OuterId(req)] == Row(PayloadOf(req), Some(response))
  {
    var id := OuterId(s.sessions[p].req);
    DraftFacts(s, id);
    CommitShape(s, p);
    assert id in Kept(s, p);
  }

  /** A client that sends the same request again, at any later point and whatever has happened since, gets
      the response that the first one committed. */
  lemma RetryRepeatsTheFirstAnswer(steps: seq<Step>, n: nat, q: Pid, response: Receipt, p: Pid)
    requires n < |steps| && steps[n] == Commit(q) && AnswersItsClient(Reached(steps[..n]), q, response)
    requires In(Reached(steps), p, Starting) && Reached(steps).sessions[p].req == Reached(steps[..n]).sessions[q].req
    ensures Next(Reached(steps), Reserve(p)).sessions[p].answer == Replay(response)
  {
    RunsAreOrderly(steps[..n]);
    RunsAnswer(steps[..n]);
    CommitStoresTheRequest(Reached(steps[..n]), q, response);
    assert steps[..n + 1][..n] == steps[..n];
    RepeatedRequestChangesNothing(steps, n + 1, p);
  }

  /** The rows that can stay unanswered although every reply was well-formed: the derived key of a
      simulated order, and an order whose side or type is not in the enums. */
  ghost predicate Unanswerable(id: KeyId, row: KeyRow) {
    || (id.endpoint.SimulationOrders? && id.key.Inner?)
    || (id.endpoint.Orders? && id.key.Client? && row.payload.OrderPayload?
        && !(NamesSide(row.payload.side) && NamesType(row.payload.orderType)))
  }

  lemma KeptRowsAreAnswered(s: Sys, p: Pid, id: KeyId)
    requires Orderly(s) && Answers(s) && Clean(s) && Enabled(s, Commit(p)) && id in Kept(s, p)
    ensures Kept(s, p)[id].response.None? ==> Unanswerable(id, Kept(s, p)[id])
  {
    DraftFacts(s, id);
    SessionFacts(s, p);
    assert CleanWrite(s.sessions[p]);
  }

  /** With well-formed replies every committed key carries its response, with two exceptions: the
      derived key of a simulated order that raised, whose client key is answered, and the key of an
      order with an unknown side or type. */
  lemma {:induction false} CommittedKeysAreAnswered(steps: seq<Step>, id: KeyId)
    requires forall i :: 0 <= i < |steps| ==> WellFormed(steps[i])
    requires id in Reached(steps).keys && Reached(steps).keys[id].response.None?
    ensures Unanswerable(id, Reached(steps).keys[id])
    ensures id.key.Inner? ==> OuterOf(id) in Reached(steps).keys && Reached(steps).keys[OuterOf(id)].response.Some?
  {
    RunsAreOrderly(steps);
    OnlyTheseStayOpen(steps, id);
    assert KeyOk(id, Reached(steps).keys);
    if id.key.Inner? && Reached(steps).keys[OuterOf(id)].response.None? {
      OnlyTheseStayOpen(steps, OuterOf(id));
    }
  }

  lemma OnlyCommitsAddKeys(s: Sys, step: Step)
    ensures !(Enabled(s, step) && step.Commit?) ==> Next(s, step).keys == s.keys
  {
  }

  lemma NewlyCommittedKeyIsAnswered(s: Sys, step: Step, id: KeyId)
    requires Orderly(s) && Answers(s) && Clean(s) && id !in s.keys && id in Next(s, step).keys
    ensures Next(s, step).keys[id].response.None? ==> Unanswerable(id, Next(s, step).keys[id])
  {
    OnlyCommitsAddKeys(s, step);
    CommitShape(s, step.p);
    KeptRowsAreAnswered(s, step.p, id);
  }

  lemma {:induction false} OnlyTheseStayOpen(steps: seq<Step>, id: KeyId)
    requires forall i :: 0 <= i < |steps| ==> WellFormed(steps[i])
    requires id in Reached(steps).keys
    ensures Reached(steps).keys[id].response.None? ==> Unanswerable(id, Reached(steps).keys[id])
  {
    if steps != [] {
      var front, step := steps[..|steps| - 1], steps[|steps| - 1];
      RunsAreOrderly(front);
      if id in Reached(front).keys {
        OnlyTheseStayOpen(front, id);
        CommittedRowsStay(Reached(front), step);
      } else {
        RunsAnswer(front);
        WellFormedRunsStayClean(front);
        NewlyCommittedKeyIsAnswered(Reached(front), step, id);
      }
    }
  }

  // ---- What a committed key asked for ----------------------------------------------------------------------------

  /** The request stored under a key asks for this order. */
  ghost predicate Asks(payload: Payload, c: Call) {
    match payload
    case OrderPayload(_, side, _, quantity, _) =>
      c.side == (if side == "BUY" then BUY else SELL) && c.quantity == quantity
    case ClosePayload(_, quantity) => c.side == SELL && c.quantity == quantity
    case _ => false
  }

  /** Every call under a committed key is what the committed request asks for. */
  ghost predicate Honored(s: Sys, id: KeyId) {
    id in s.keys ==> forall i :: 0 <= i < |s.calls| && s.calls[i].cid == id ==> Asks(s.keys[id].payload, s.calls[i])
  }

  lemma CallerAsks(s: Sys, p: Pid, id: KeyId)
    requires Orderly(s) && Answers(s) && p in s.sessions && Spender(s.sessions[p], id) && OwnedBy(s.owners, id, p)
    ensures IsCaller(s.sessions[p]) && id in s.drafts
    ensures forall index :: Asks(s.drafts[id].payload, CallOf(s.sessions[p], index))
  {
    SessionFacts(s, p);
    DraftFacts(s, id);
  }

  lemma OnlyItsCall(s: Sys, p: Pid, id: KeyId)
    requires AllRecall(s) && CallsOnce(s.calls, id) && p in s.sessions && Spender(s.sessions[p], id)
    ensures var n := s.sessions[p];
            IsCaller(n) && forall i :: 0 <= i < |s.calls| && s.calls[i].cid == id ==>
                s.calls[i] == CallOf(n, n.call.value)
  {
    assert Recalls(s.sessions[p], s.calls);
  }

  lemma CommitHonors(s: Sys, p: Pid, id: KeyId)
    requires Recorded(s) && Answers(s) && Once(s, id) && Honored(s, id) && Enabled(s, Commit(p))
    ensures Honored(ApplyCommit(s, p), id)
  {
    CommitShape(s, p);
    if id in Kept(s, p) {
      assert DraftOk(id, s.owners, s.keys, s.sessions);
      if Uses(s.calls, id) {
        CallerAsks(s, p, id);
        OnlyItsCall(s, p, id);
      }
    }
  }

  lemma StepHonors(s: Sys, step: Step, id: KeyId)
    requires Recorded(s) && Answers(s) && Once(s, id) && Honored(s, id)
    ensures Honored(Next(s, step), id)
  {
    if Enabled(s, step) {
      if step.Commit? {
        CommitHonors(s, step.p, id);
      } else {
        OnlyCommitsAddKeys(s, step);
        CallsGrow(s, step);
        if Passes(step) {
          CallerIsFirst(s, step.p, CidOf(s.sessions[step.p].req));
        }
      }
    }
  }

  lemma {:induction false} RunsHonor(steps: seq<Step>, id: KeyId)
    requires KeepsCalls(steps, id)
    ensures Honored(Reached(steps), id)
  {
    if steps != [] {
      var front := steps[..|steps| - 1];
      KeepsCallsFront(steps, id);
      RunsHonor(front, id);
      RunsAreRecorded(front);
      RunsAnswer(front);
      RunsCallOnce(front, id);
      StepHonors(Reached(front), steps[|steps| - 1], id);
    }
  }

  /** As long as no session that has called under the key rolls back: the request stored under a
      committed key asks for exactly the side and quantity of the one order sent and accepted under it. */
  lemma CommittedKeysAskedForTheirOrders(steps: seq<Step>, id: KeyId, c: Call)
    requires KeepsCalls(steps, id) && id in Reached(steps).keys && c.cid == id
    requires c in Reached(steps).calls || c in Reached(steps).book
    ensures Asks(Reached(steps).keys[id].payload, c)
  {
    var s := Reached(steps);
    RunsHonor(steps, id);
    RunsKeepBook(steps);
    if c in s.book {
      var i :| 0 <= i < |s.book| && s.book[i] == c;
      assert EntryOk(s.book[i], s.calls, s.fate);
    }
  }
}
