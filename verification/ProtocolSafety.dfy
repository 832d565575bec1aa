/** What every run keeps, crashes included. */
module ProtocolSafety {
  import opened Common
  import opened Idempotency
  import opened BotMachine
  import opened Requests
  import opened Protocol
  import SimulationLedger

  // ---- The invariant, one predicate per part of the state ------------------------------------

  type Owners = map<KeyId, Pid>
  type Sessions = map<Pid, Session>
  type Locks = map<nat, Pid>
  type Desks = map<nat, Desk>

  ghost predicate OwnedBy(owners: Owners, id: KeyId, p: Pid) { id in owners && owners[id] == p }

  ghost predicate LockedBy(locks: Locks, b: nat, p: Pid) { b in locks && locks[b] == p }

  ghost predicate Mine(req: Request, id: KeyId) {
    id == OuterId(req) || (req.Transition? && (id == InnerId(req, LIVE) || id == InnerId(req, SIMULATION)))
  }

  ghost predicate Calling(phase: Phase) { phase in {Sent, Doubtful, Unsettled} }

  /** A claimed key belongs to an open session that also owns its client key, and is not committed. */
  ghost predicate DraftOk(id: KeyId, owners: Owners, keys: map<KeyId, KeyRow>, sessions: Sessions)
    requires id in owners
  {
    var p := owners[id];
    && id !in keys
    && p in sessions && sessions[p].phase != Starting
    && Mine(sessions[p].req, id)
    && OwnedBy(owners, OuterId(sessions[p].req), p)
  }

  ghost predicate KeyOk(id: KeyId, keys: map<KeyId, KeyRow>) { id.key.Inner? ==> OuterOf(id) in keys }

  /** What phase a session can be in, what it has read and done there, and the keys it owns. */
  ghost predicate ClaimOk(p: Pid, n: Session, owners: Owners) {
    && WellTyped(n.req)
    && (n.phase !in {Starting, Finished} ==> OwnedBy(owners, OuterId(n.req), p))
    && (n.phase in {Holding, Keyed, Unsettled} ==> n.req.Transition?)
    && (n.phase in {Sent, Doubtful} ==> n.req.Transition? || n.req.PlaceOrder?)
    && (n.req.Transition? && n.phase !in {Starting, Claimed, Finished} ==> n.row.Some?)
    && (n.phase == Keyed ==> OwnedBy(owners, InnerId(n.req, n.row.value.bot.mode), p))
    && (Calling(n.phase) ==> n.call.Some?)
    && (n.call.Some? ==>
          && (Calling(n.phase) || n.phase == Finished) && IsCaller(n) && !Misspells(n.req)
          && OwnedBy(owners, CidOf(n.req), p))
  }

  /** A session that read its bot's row still has it locked, and the committed row is still the one it read. */
  ghost predicate HoldOk(p: Pid, n: Session, locks: Locks, desks: Desks) {
    n.row.Some? ==>
      && n.req.Transition? && n.phase !in {Starting, Claimed}
      && LockedBy(locks, n.req.bot, p) && n.req.bot in desks && desks[n.req.bot] == n.row.value
      && n.row.value.bot.status == From(n.req.op) && n.row.value.bot.user == n.req.user
      && (n.call.Some? ==> n.row.value.bot.mode == LIVE)
  }

  /** The event a session writes is the one its request asks for, in the mode of the row it read. */
  ghost predicate OwnEvent(n: Session, event: Event) {
    if n.req.Transition? then
      n.row.Some? && (if n.row.value.bot.mode == LIVE then event.LiveTransition? else event.SimTransition?)
          && event.op == n.req.op
    else n.req.Manage? && event == n.req.event
  }

  /** What a session is about to write is what its event makes of the committed row. */
  ghost predicate WriteOk(p: Pid, n: Session, locks: Locks, desks: Desks, hist: map<nat, History>) {
    && (n.phase == Finished && n.row.Some? ==> n.write.Put?)
    && (n.write != NoWrite ==>
          && n.phase == Finished && !n.req.PlaceOrder? && LockedBy(locks, n.req.bot, p)
          && (n.write.Put? ==>
                && OwnEvent(n, n.write.event) && n.req.bot in desks
                && n.write.desk == BotMachine.Step(desks[n.req.bot], n.write.event))
          && (n.write.Create? ==> n.req.Open? && n.req.bot !in hist)
          && (n.write.Drop? ==> n.req.Remove? && n.req.bot in desks))
  }

  ghost predicate LockOk(b: nat, locks: Locks, sessions: Sessions, desks: Desks, hist: map<nat, History>)
    requires b in locks
  {
    var p := locks[b];
    && p in sessions
    && var n := sessions[p];
       && !n.req.PlaceOrder? && n.req.bot == b && n.phase !in {Starting, Claimed}
       && (if n.req.Open? then b !in hist && n.phase == Finished else b in desks)
  }

  ghost predicate IsNew(d: Desk) {
    d == NewDesk(d.bot.user, d.bot.symbol, d.bot.target, d.ledger.initialCapital)
  }

  /** The committed row of a bot is what its completed operations make of a new one. */
  ghost predicate DeskOk(b: nat, desks: Desks, hist: map<nat, History>)
    requires b in desks
  {
    b in hist && desks[b] == hist[b].last
  }

  ghost predicate HistoryOk(h: History) {
    IsNew(h.first) && h.last == BotMachine.Run(h.first, h.events)
  }

  ghost predicate DraftsOk(owners: Owners, keys: map<KeyId, KeyRow>, sessions: Sessions) {
    forall id :: id in owners ==> DraftOk(id, owners, keys, sessions)
  }

  ghost predicate KeysOk(keys: map<KeyId, KeyRow>) { forall id :: id in keys ==> KeyOk(id, keys) }

  ghost predicate ClaimsOk(sessions: Sessions, owners: Owners) {
    forall p :: p in sessions ==> ClaimOk(p, sessions[p], owners)
  }

  ghost predicate HoldsOk(sessions: Sessions, locks: Locks, desks: Desks) {
    forall p :: p in sessions ==> HoldOk(p, sessions[p], locks, desks)
  }

  ghost predicate WritesOk(sessions: Sessions, locks: Locks, desks: Desks, hist: map<nat, History>) {
    forall p :: p in sessions ==> WriteOk(p, sessions[p], locks, desks, hist)
  }

  ghost predicate LocksOk(locks: Locks, sessions: Sessions, desks: Desks, hist: map<nat, History>) {
    forall b :: b in locks ==> LockOk(b, locks, sessions, desks, hist)
  }

  ghost predicate DesksOk(desks: Desks, hist: map<nat, History>) {
    && (forall b :: b in desks ==> DeskOk(b, desks, hist))
    && (forall b :: b in hist ==> HistoryOk(hist[b]))
  }

  ghost predicate Orderly(s: Sys) {
    && s.owners.Keys == s.drafts.Keys
    && DraftsOk(s.owners, s.keys, s.sessions)
    && KeysOk(s.keys)
    && ClaimsOk(s.sessions, s.owners)
    && HoldsOk(s.sessions, s.locks, s.desks)
    && WritesOk(s.sessions, s.locks, s.desks, s.hist)
    && LocksOk(s.locks, s.sessions, s.desks, s.hist)
    && DesksOk(s.desks, s.hist)
  }

  // ---- Building blocks -------------------------------------------------------------------------

  lemma DraftsMove(owners: Owners, keys: map<KeyId, KeyRow>, sessions: Sessions, p: Pid, n: Session)
    requires DraftsOk(owners, keys, sessions) && p in sessions
    requires n.req == sessions[p].req && n.phase != Starting
    ensures DraftsOk(owners, keys, sessions[p := n])
  {
    forall id | id in owners ensures DraftOk(id, owners, keys, sessions[p := n]) {
      assert DraftOk(id, owners, keys, sessions);
    }
  }

  lemma ClaimsMove(sessions: Sessions, owners: Owners, p: Pid, n: Session)
    requires ClaimsOk(sessions, owners) && ClaimOk(p, n, owners)
    ensures ClaimsOk(sessions[p := n], owners)
  {
  }

  lemma HoldsMove(sessions: Sessions, locks: Locks, desks: Desks, p: Pid, n: Session)
    requires HoldsOk(sessions, locks, desks) && HoldOk(p, n, locks, desks)
    ensures HoldsOk(sessions[p := n], locks, desks)
  {
  }

  lemma WritesMove(sessions: Sessions, locks: Locks, desks: Desks, hist: map<nat, History>, p: Pid, n: Session)
    requires WritesOk(sessions, locks, desks, hist) && WriteOk(p, n, locks, desks, hist)
    ensures WritesOk(sessions[p := n], locks, desks, hist)
  {
  }

  lemma LocksMove(locks: Locks, sessions: Sessions, desks: Desks, hist: map<nat, History>, p: Pid, n: Session)
    requires LocksOk(locks, sessions, desks, hist) && p in sessions
    requires n.req == sessions[p].req && n.phase != Starting
    requires n.phase == Claimed ==> sessions[p].phase in {Starting, Claimed}
    requires n.req.Open? && sessions[p].phase == Finished ==> n.phase == Finished
    ensures LocksOk(locks, sessions[p := n], desks, hist)
  {
    forall b | b in locks ensures LockOk(b, locks, sessions[p := n], desks, hist) {
      assert LockOk(b, locks, sessions, desks, hist);
    }
  }

  /** One session moves on; of the rest at most the stored responses change. */
  lemma SessionMoves(s: Sys, p: Pid, n: Session, drafts: map<KeyId, KeyRow>)
    requires Orderly(s) && p in s.sessions && drafts.Keys == s.drafts.Keys
    requires n.req == s.sessions[p].req && n.phase != Starting
    requires ClaimOk(p, n, s.owners) && HoldOk(p, n, s.locks, s.desks)
    requires WriteOk(p, n, s.locks, s.desks, s.hist)
    requires n.phase == Claimed ==> s.sessions[p].phase in {Starting, Claimed}
    requires n.req.Open? && s.sessions[p].phase == Finished ==> n.phase == Finished
    ensures Orderly(s.(sessions := s.sessions[p := n], drafts := drafts))
  {
    DraftsMove(s.owners, s.keys, s.sessions, p, n);
    ClaimsMove(s.sessions, s.owners, p, n);
    HoldsMove(s.sessions, s.locks, s.desks, p, n);
    WritesMove(s.sessions, s.locks, s.desks, s.hist, p, n);
    LocksMove(s.locks, s.sessions, s.desks, s.hist, p, n);
  }

  /** What the invariant says about one session. */
  lemma SessionFacts(s: Sys, p: Pid)
    requires Orderly(s) && p in s.sessions
    ensures ClaimOk(p, s.sessions[p], s.owners) && HoldOk(p, s.sessions[p], s.locks, s.desks)
    ensures WriteOk(p, s.sessions[p], s.locks, s.desks, s.hist)
  {
  }

  lemma FinishKeeps(s: Sys, p: Pid, write: Write, drafts: map<KeyId, KeyRow>)
    requires Orderly(s) && p in s.sessions && drafts.Keys == s.drafts.Keys
    requires WriteOk(p, s.sessions[p].(phase := Finished, write := write), s.locks, s.desks, s.hist)
    ensures Orderly(Finish(s, p, write, drafts))
  {
    SessionFacts(s, p);
    SessionMoves(s, p, s.sessions[p].(phase := Finished, write := write), drafts);
  }

  lemma FinishLiveKeeps(s: Sys, p: Pid, outcome: Outcome, returned: Option<OrderStatus>)
    requires Orderly(s) && Moving(s, p) && s.sessions[p].row.value.bot.mode == LIVE
    ensures Orderly(FinishLive(s, p, outcome, returned))
  {
    SessionFacts(s, p);
    var n := s.sessions[p];
    var event := LiveTransition(n.req.op, outcome);
    var desk := BotMachine.Step(n.row.value, event);
    FinishKeeps(s, p, Put(event, desk), LiveDrafts(s.drafts, n.req, desk.bot, outcome, returned));
  }

  lemma FinishOrderKeeps(s: Sys, p: Pid, status: OrderStatus)
    requires Orderly(s) && p in s.sessions && s.sessions[p].req.PlaceOrder?
    ensures Orderly(FinishOrder(s, p, status))
  {
    SessionFacts(s, p);
    FinishKeeps(s, p, NoWrite, FinishOrder(s, p, status).drafts);
  }

  /** A session that waits for an answer from the exchange. */
  ghost predicate Awaits(s: Sys, p: Pid) { p in s.sessions && Calling(s.sessions[p].phase) }

  lemma CallerFacts(s: Sys, p: Pid)
    requires Orderly(s) && Awaits(s, p)
    ensures Knows(s, p) && s.sessions[p].call.Some? && IsCaller(s.sessions[p])
    ensures !s.sessions[p].req.Transition? ==> s.sessions[p].req.PlaceOrder?
    ensures s.sessions[p].req.Transition? ==> Moving(s, p) && s.sessions[p].row.value.bot.mode == LIVE
  {
    SessionFacts(s, p);
  }

  lemma AwaitingKeeps(s: Sys, p: Pid, phase: Phase, drafts: map<KeyId, KeyRow>)
    requires Orderly(s) && Awaits(s, p) && drafts.Keys == s.drafts.Keys
    requires phase == Doubtful || (phase == Unsettled && s.sessions[p].req.Transition?)
    ensures Orderly(At(s.(drafts := drafts), p, phase))
  {
    SessionFacts(s, p);
    SessionMoves(s, p, s.sessions[p].(phase := phase), drafts);
  }

  lemma LearnKeeps(s: Sys, p: Pid, status: OrderStatus)
    requires Orderly(s) && Awaits(s, p)
    ensures Knows(s, p) && Orderly(Learn(s, p, status))
  {
    CallerFacts(s, p);
    var req := s.sessions[p].req;
    if !req.Transition? {
      FinishOrderKeeps(s, p, status);
    } else if status in {NEW, PARTIALLY_FILLED} {
      AwaitingKeeps(s, p, Unsettled, Finalized(s.drafts, InnerId(req, LIVE), OrderReceipt(status)));
    } else {
      FinishLiveKeeps(s, p, OutcomeOfStatus(status), Some(status));
    }
  }

  lemma SafetyNetKeeps(s: Sys, p: Pid)
    requires Orderly(s) && Knows(s, p)
    requires s.sessions[p].req.PlaceOrder? || (Moving(s, p) && s.sessions[p].row.value.bot.mode == LIVE)
    ensures Orderly(SafetyNet(s, p))
  {
    if s.sessions[p].req.Transition? {
      FinishLiveKeeps(s, p, Outcome.Raised, Some(OrderStatus.FAILED));
    } else {
      FinishOrderKeeps(s, p, OrderStatus.FAILED);
    }
  }

  // ---- Claiming a key -----------------------------------------------------------------------------

  lemma DraftsClaim(owners: Owners, keys: map<KeyId, KeyRow>, sessions: Sessions, p: Pid, n: Session, id: KeyId)
    requires DraftsOk(owners, keys, sessions) && p in sessions
    requires n.req == sessions[p].req && n.phase != Starting && Mine(n.req, id)
    requires id !in owners && id !in keys
    requires id == OuterId(n.req) || OwnedBy(owners, OuterId(n.req), p)
    ensures DraftsOk(owners[id := p], keys, sessions[p := n])
  {
    var after := owners[id := p];
    forall i | i in after ensures DraftOk(i, after, keys, sessions[p := n]) {
      if i != id {
        assert DraftOk(i, owners, keys, sessions);
      }
    }
  }

  lemma ClaimsClaim(sessions: Sessions, owners: Owners, p: Pid, id: KeyId)
    requires ClaimsOk(sessions, owners) && id !in owners
    ensures ClaimsOk(sessions, owners[id := p])
  {
    forall q | q in sessions ensures ClaimOk(q, sessions[q], owners[id := p]) {
      assert ClaimOk(q, sessions[q], owners);
    }
  }

  lemma ClaimKeeps(s: Sys, p: Pid, id: KeyId, n: Session, owners: Owners, t: Sys)
    requires Orderly(s) && p in s.sessions && id !in s.owners && id !in s.keys
    requires n.req == s.sessions[p].req && n.phase != Starting && Mine(n.req, id)
    requires s.sessions[p].phase in {Starting, Holding} && (n.phase == Claimed ==> s.sessions[p].phase == Starting)
    requires id == OuterId(n.req) || OwnedBy(s.owners, OuterId(n.req), p)
    requires owners == s.owners[id := p] && t.owners == owners && t.drafts.Keys == s.drafts.Keys + {id}
    requires t.sessions == s.sessions[p := n] && t.locks == s.locks && Uncommitted(s, t)
    requires ClaimOk(p, n, owners) && HoldOk(p, n, s.locks, s.desks) && WriteOk(p, n, s.locks, s.desks, s.hist)
    ensures Orderly(t)
  {
    DraftsClaim(s.owners, s.keys, s.sessions, p, n, id);
    ClaimsClaim(s.sessions, s.owners, p, id);
    ClaimsMove(s.sessions, owners, p, n);
    HoldsMove(s.sessions, s.locks, s.desks, p, n);
    WritesMove(s.sessions, s.locks, s.desks, s.hist, p, n);
    LocksMove(s.locks, s.sessions, s.desks, s.hist, p, n);
  }

  lemma ClaimShape(s: Sys, p: Pid, id: KeyId, payload: Payload, phase: Phase, t: Sys)
    requires p in s.sessions && t == At(Claim(s, p, id, payload), p, phase)
    ensures t.owners == s.owners[id := p] && t.drafts.Keys == s.drafts.Keys + {id} && t.locks == s.locks
    ensures t.sessions == s.sessions[p := s.sessions[p].(phase := phase)] && Uncommitted(s, t)
  {
  }

  lemma ReplayKeeps(s: Sys, p: Pid, m: Session)
    requires Orderly(s) && In(s, p, Starting)
    requires m == s.sessions[p].(phase := Finished, write := NoWrite, answer := m.answer)
    ensures Orderly(s.(sessions := s.sessions[p := m]))
  {
    SessionFacts(s, p);
    SessionMoves(s, p, m, s.drafts);
    assert s.(sessions := s.sessions[p := m], drafts := s.drafts) == s.(sessions := s.sessions[p := m]);
  }

  /** The keys a session claims, and when. */
  ghost predicate MayClaim(n: Session, id: KeyId, phase: Phase) {
    || (n.phase == Starting && phase == Claimed && id == OuterId(n.req))
    || (n.phase == Holding && phase == Keyed && n.req.Transition? && n.row.Some?
        && id == InnerId(n.req, n.row.value.bot.mode))
  }

  lemma ClaimantFits(p: Pid, n: Session, owners: Owners, id: KeyId, phase: Phase)
    requires ClaimOk(p, n, owners) && MayClaim(n, id, phase) && id !in owners
    ensures ClaimOk(p, n.(phase := phase), owners[id := p])
    ensures Mine(n.req, id) && (id == OuterId(n.req) || OwnedBy(owners, OuterId(n.req), p))
  {
  }

  lemma ClaimantHolds(p: Pid, n: Session, locks: Locks, desks: Desks, hist: map<nat, History>, id: KeyId, phase: Phase)
    requires HoldOk(p, n, locks, desks) && WriteOk(p, n, locks, desks, hist) && MayClaim(n, id, phase)
    ensures HoldOk(p, n.(phase := phase), locks, desks) && WriteOk(p, n.(phase := phase), locks, desks, hist)
  {
  }

  /** A session claims a key nobody has and moves on. */
  lemma ClaimingKeeps(s: Sys, p: Pid, id: KeyId, payload: Payload, phase: Phase)
    requires Orderly(s) && p in s.sessions && id !in s.owners && id !in s.keys && MayClaim(s.sessions[p], id, phase)
    ensures Orderly(At(Claim(s, p, id, payload), p, phase))
  {
    var n, t := s.sessions[p], At(Claim(s, p, id, payload), p, phase);
    SessionFacts(s, p);
    ClaimantFits(p, n, s.owners, id, phase);
    ClaimantHolds(p, n, s.locks, s.desks, s.hist, id, phase);
    ClaimShape(s, p, id, payload, phase, t);
    ClaimKeeps(s, p, id, t.sessions[p], t.owners, t);
  }

  lemma ReserveKeeps(s: Sys, p: Pid)
    requires Orderly(s) && Enabled(s, Reserve(p))
    ensures Orderly(ApplyReserve(s, p))
  {
    var req := s.sessions[p].req;
    if OuterId(req) in s.keys {
      ReplayKeeps(s, p, ApplyReserve(s, p).sessions[p]);
    } else {
      ClaimingKeeps(s, p, OuterId(req), PayloadOf(req), Claimed);
    }
  }

  /** The derived inner key is never taken: its client key would be committed too. */
  lemma InnerKeyIsFresh(s: Sys, p: Pid, mode: Mode)
    requires Orderly(s) && In(s, p, Holding)
    ensures s.sessions[p].req.Transition? && InnerId(s.sessions[p].req, mode) !in s.keys
  {
    var req := s.sessions[p].req;
    SessionFacts(s, p);
    assert DraftOk(OuterId(req), s.owners, s.keys, s.sessions);
    assert OuterOf(InnerId(req, mode)) == OuterId(req);
    assert KeysOk(s.keys);
  }

  lemma ReserveInnerKeeps(s: Sys, p: Pid)
    requires Orderly(s) && Enabled(s, ReserveInner(p))
    ensures Orderly(ApplyReserveInner(s, p))
  {
    var req, bot := s.sessions[p].req, s.sessions[p].row.value.bot;
    InnerKeyIsFresh(s, p, bot.mode);
    ClaimingKeeps(s, p, InnerId(req, bot.mode), InnerPayload(req.op, req.bot, bot), Keyed);
  }

  // ---- Locking a row --------------------------------------------------------------------------------

  lemma LocksLock(locks: Locks, sessions: Sessions, desks: Desks, hist: map<nat, History>, p: Pid, n: Session)
    requires LocksOk(locks, sessions, desks, hist) && p in sessions
    requires n.req == sessions[p].req && !n.req.PlaceOrder? && n.req.bot !in locks
    requires n.phase !in {Starting, Claimed}
    requires if n.req.Open? then n.req.bot !in hist && n.phase == Finished else n.req.bot in desks
    ensures LocksOk(locks[n.req.bot := p], sessions[p := n], desks, hist)
  {
    var after := locks[n.req.bot := p];
    forall b | b in after ensures LockOk(b, after, sessions[p := n], desks, hist) {
      if b != n.req.bot {
        assert LockOk(b, locks, sessions, desks, hist);
      }
    }
  }

  lemma HoldsLock(sessions: Sessions, locks: Locks, desks: Desks, b: nat, p: Pid)
    requires HoldsOk(sessions, locks, desks) && b !in locks
    ensures HoldsOk(sessions, locks[b := p], desks)
  {
    forall q | q in sessions ensures HoldOk(q, sessions[q], locks[b := p], desks) {
      assert HoldOk(q, sessions[q], locks, desks);
    }
  }

  lemma WritesLock(sessions: Sessions, locks: Locks, desks: Desks, hist: map<nat, History>, b: nat, p: Pid)
    requires WritesOk(sessions, locks, desks, hist) && b !in locks
    ensures WritesOk(sessions, locks[b := p], desks, hist)
  {
    forall q | q in sessions ensures WriteOk(q, sessions[q], locks[b := p], desks, hist) {
      assert WriteOk(q, sessions[q], locks, desks, hist);
    }
  }

  lemma LockKeeps(s: Sys, p: Pid, n: Session, drafts: map<KeyId, KeyRow>, t: Sys)
    requires Orderly(s) && p in s.sessions && drafts.Keys == s.drafts.Keys
    requires n.req == s.sessions[p].req && !n.req.PlaceOrder? && n.req.bot !in s.locks
    requires n.phase !in {Starting, Claimed}
    requires if n.req.Open? then n.req.bot !in s.hist && n.phase == Finished else n.req.bot in s.desks
    requires var locks := s.locks[n.req.bot := p];
             ClaimOk(p, n, s.owners) && HoldOk(p, n, locks, s.desks) && WriteOk(p, n, locks, s.desks, s.hist)
    requires t == s.(locks := s.locks[n.req.bot := p], sessions := s.sessions[p := n], drafts := drafts)
    ensures Orderly(t)
  {
    var locks := s.locks[n.req.bot := p];
    DraftsMove(s.owners, s.keys, s.sessions, p, n);
    ClaimsMove(s.sessions, s.owners, p, n);
    HoldsLock(s.sessions, s.locks, s.desks, n.req.bot, p);
    HoldsMove(s.sessions, locks, s.desks, p, n);
    WritesLock(s.sessions, s.locks, s.desks, s.hist, n.req.bot, p);
    WritesMove(s.sessions, locks, s.desks, s.hist, p, n);
    LocksLock(s.locks, s.sessions, s.desks, s.hist, p, n);
  }

  lemma LandShape(s: Sys, p: Pid, l: Landing, t: Sys)
    requires p in s.sessions && t == Land(s, p, l)
    ensures var n, outer := s.sessions[p], OuterId(s.sessions[p].req);
            && Uncommitted(s, t) && t.owners == s.owners && t.locks == s.locks && t.drafts.Keys == s.drafts.Keys
            && t.sessions == s.sessions[p := n.(phase := l.phase, row := l.row, write := l.write)]
            && (forall id :: id in s.drafts && id != outer ==> t.drafts[id] == s.drafts[id])
            && (outer in s.drafts ==>
                  if l.receipt.Some? then t.drafts[outer] == s.drafts[outer].(response := l.receipt)
                  else t.drafts[outer] == s.drafts[outer])
  {
  }

  /** What a session may become when it has locked its bot's row. */
  ghost predicate LandingFits(req: Request, l: Landing, desks: Desks) {
    if l.phase == Holding then
      && l.write == NoWrite && req.Transition? && req.bot in desks && l.row == Some(desks[req.bot])
      && desks[req.bot].bot.status == From(req.op) && desks[req.bot].bot.user == req.user
    else
      && l.phase == Finished && l.row.None?
      && (|| l.write == NoWrite
          || (l.write == Create && req.Open?)
          || (l.write == Drop && req.Remove?)
          || (l.write.Put? && req.Manage? && l.write.event == req.event && req.bot in desks
              && l.write.desk == BotMachine.Step(desks[req.bot], req.event)))
  }

  lemma LandKeeps(s: Sys, p: Pid, l: Landing)
    requires Orderly(s) && Enabled(s, Load(p))
    requires var req := s.sessions[p].req; (req.Open? || Finds(s, req)) && LandingFits(req, l, s.desks)
    ensures Orderly(Land(s.(locks := s.locks[s.sessions[p].req.bot := p]), p, l))
  {
    var n := s.sessions[p];
    var locked := s.(locks := s.locks[n.req.bot := p]);
    var t := Land(locked, p, l);
    SessionFacts(s, p);
    LandShape(locked, p, l, t);
    LockKeeps(s, p, n.(phase := l.phase, row := l.row, write := l.write), t.drafts, t);
  }

  lemma LandingOfFits(req: Request, desks: Desks)
    requires !req.PlaceOrder? && !req.Open? && req.bot in desks && desks[req.bot].bot.user == req.user
    ensures LandingFits(req, LandingOf(req, desks[req.bot]), desks)
  {
  }

  lemma MissKeeps(s: Sys, p: Pid, l: Landing)
    requires Orderly(s) && In(s, p, Claimed) && l.phase == Finished && l.row.None? && l.write == NoWrite
    ensures Orderly(Land(s, p, l))
  {
    var t := Land(s, p, l);
    SessionFacts(s, p);
    SessionMoves(s, p, t.sessions[p], t.drafts);
  }

  lemma LoadKeeps(s: Sys, p: Pid)
    requires Orderly(s) && Enabled(s, Load(p))
    ensures Orderly(ApplyLoad(s, p))
  {
    var req := s.sessions[p].req;
    if req.Open? {
      LandKeeps(s, p, Ending(Create,
        BotReceipt(Some(NewDesk(req.user, req.symbol, req.target, req.capital).bot), Now(PAUSED))));
    } else if Finds(s, req) {
      LandingOfFits(req, s.desks);
      LandKeeps(s, p, LandingOf(req, s.desks[req.bot]));
    } else {
      MissKeeps(s, p, Ending(NoWrite, BotReceipt(None, Declined)));
    }
  }

  // ---- Ending a session ----------------------------------------------------------------------------

  lemma DraftsLeave(owners: Owners, keys: map<KeyId, KeyRow>, sessions: Sessions, p: Pid)
    requires DraftsOk(owners, keys, sessions)
    ensures DraftsOk(OthersKeys(owners, p), keys, sessions - {p})
  {
    var after := OthersKeys(owners, p);
    forall id | id in after ensures DraftOk(id, after, keys, sessions - {p}) {
      assert DraftOk(id, owners, keys, sessions);
    }
  }

  lemma LocksLeave(locks: Locks, sessions: Sessions, desks: Desks, hist: map<nat, History>, p: Pid)
    requires LocksOk(locks, sessions, desks, hist)
    ensures LocksOk(OthersLocks(locks, p), sessions - {p}, desks, hist)
  {
    var after := OthersLocks(locks, p);
    forall b | b in after ensures LockOk(b, after, sessions - {p}, desks, hist) {
      assert LockOk(b, locks, sessions, desks, hist);
    }
  }

  lemma SessionsLeave(s: Sys, p: Pid)
    requires ClaimsOk(s.sessions, s.owners) && HoldsOk(s.sessions, s.locks, s.desks)
    requires WritesOk(s.sessions, s.locks, s.desks, s.hist)
    ensures ClaimsOk(s.sessions - {p}, OthersKeys(s.owners, p))
    ensures HoldsOk(s.sessions - {p}, OthersLocks(s.locks, p), s.desks)
    ensures WritesOk(s.sessions - {p}, OthersLocks(s.locks, p), s.desks, s.hist)
  {
    var sessions, owners, locks := s.sessions - {p}, OthersKeys(s.owners, p), OthersLocks(s.locks, p);
    forall q | q in sessions ensures ClaimOk(q, sessions[q], owners) {
      assert ClaimOk(q, s.sessions[q], s.owners);
    }
    forall q | q in sessions ensures HoldOk(q, sessions[q], locks, s.desks) {
      assert HoldOk(q, s.sessions[q], s.locks, s.desks);
    }
    forall q | q in sessions ensures WriteOk(q, sessions[q], locks, s.desks, s.hist) {
      assert WriteOk(q, s.sessions[q], s.locks, s.desks, s.hist);
    }
  }

  lemma LeaveKeeps(s: Sys, p: Pid)
    requires Orderly(s)
    ensures Orderly(Leave(s, p))
  {
    DraftsLeave(s.owners, s.keys, s.sessions, p);
    SessionsLeave(s, p);
    LocksLeave(s.locks, s.sessions, s.desks, s.hist, p);
    var t := Leave(s, p);
    assert t.owners.Keys == t.drafts.Keys;
  }

  /** The rows a session commits are keys nobody else has claimed, each inner one with its client key. */
  lemma CommitKeysKeeps(s: Sys, p: Pid)
    requires Orderly(s)
    ensures Orderly(Leave(s, p).(keys := s.keys + Kept(s, p)))
  {
    var t := Leave(s, p);
    var keys := s.keys + Kept(s, p);
    LeaveKeeps(s, p);
    forall id | id in t.owners ensures DraftOk(id, t.owners, keys, t.sessions) {
      assert DraftOk(id, t.owners, t.keys, t.sessions);
    }
    forall id | id in keys ensures KeyOk(id, keys) {
      if id in Kept(s, p) && id.key.Inner? {
        assert DraftOk(id, s.owners, s.keys, s.sessions);
        KeptInnerHasOuter(s, p, id);
      } else if id in s.keys {
        assert KeyOk(id, s.keys);
      }
    }
  }

  lemma KeptInnerHasOuter(s: Sys, p: Pid, id: KeyId)
    requires Orderly(s) && id in Kept(s, p) && id.key.Inner?
    ensures OuterOf(id) in Kept(s, p)
  {
    assert DraftOk(id, s.owners, s.keys, s.sessions);
    assert Owns(s, p, OuterId(s.sessions[p].req));
  }

  /** An unlocked bot row may change: no open session relies on it. */
  lemma UnlockedRowMayChange(t: Sys, b: nat, desks: Desks, hist: map<nat, History>)
    requires Orderly(t) && b !in t.locks && DesksOk(desks, hist)
    requires forall c :: c != b ==> (c in desks <==> c in t.desks) && (c in hist <==> c in t.hist)
    requires forall c :: c != b && c in desks ==> desks[c] == t.desks[c]
    ensures Orderly(t.(desks := desks, hist := hist))
  {
    forall q | q in t.sessions ensures HoldOk(q, t.sessions[q], t.locks, desks) {
      assert HoldOk(q, t.sessions[q], t.locks, t.desks);
    }
    forall q | q in t.sessions ensures WriteOk(q, t.sessions[q], t.locks, desks, hist) {
      assert WriteOk(q, t.sessions[q], t.locks, t.desks, t.hist);
    }
    forall c | c in t.locks ensures LockOk(c, t.locks, t.sessions, desks, hist) {
      assert LockOk(c, t.locks, t.sessions, t.desks, t.hist);
    }
  }

  function Extended(h: History, desk: Desk, event: Event): History {
    h.(events := h.events + [event], last := desk)
  }

  lemma HistoryGrows(h: History, event: Event, desk: Desk)
    requires HistoryOk(h) && desk == BotMachine.Step(h.last, event)
    ensures HistoryOk(Extended(h, desk, event))
  {
    BotMachine.RunSnoc(h.first, h.events, event);
  }

  lemma DesksPut(desks: Desks, hist: map<nat, History>, b: nat, desk: Desk, h: History)
    requires DesksOk(desks, hist) && HistoryOk(h) && h.last == desk
    ensures DesksOk(desks[b := desk], hist[b := h])
  {
    var desks', hist' := desks[b := desk], hist[b := h];
    forall c | c in desks' ensures DeskOk(c, desks', hist') {
      if c != b {
        assert DeskOk(c, desks, hist);
      }
    }
  }

  lemma DesksDrop(desks: Desks, hist: map<nat, History>, b: nat)
    requires DesksOk(desks, hist)
    ensures DesksOk(desks - {b}, hist)
  {
    var desks' := desks - {b};
    forall c | c in desks' ensures DeskOk(c, desks', hist) {
      assert DeskOk(c, desks, hist);
    }
  }

  lemma CommitPutKeeps(left: Sys, b: nat, desk: Desk, h: History)
    requires Orderly(left) && b !in left.locks && HistoryOk(h) && h.last == desk
    ensures Orderly(left.(desks := left.desks[b := desk], hist := left.hist[b := h]))
  {
    DesksPut(left.desks, left.hist, b, desk, h);
    UnlockedRowMayChange(left, b, left.desks[b := desk], left.hist[b := h]);
  }

  lemma CommitDropKeeps(left: Sys, b: nat)
    requires Orderly(left) && b !in left.locks
    ensures Orderly(left.(desks := left.desks - {b}))
  {
    DesksDrop(left.desks, left.hist, b);
    UnlockedRowMayChange(left, b, left.desks - {b}, left.hist);
  }

  lemma CommitKeeps(s: Sys, p: Pid)
    requires Orderly(s) && Enabled(s, Commit(p))
    ensures Orderly(ApplyCommit(s, p))
  {
    var n := s.sessions[p];
    var left := Leave(s, p).(keys := s.keys + Kept(s, p));
    CommitKeysKeeps(s, p);
    SessionFacts(s, p);
    match n.write
    case NoWrite =>
    case Put(event, desk) =>
      var b := n.req.bot;
      assert DeskOk(b, s.desks, s.hist);
      HistoryGrows(s.hist[b], event, desk);
      CommitPutKeeps(left, b, desk, Extended(s.hist[b], desk, event));
    case Create =>
      var desk := NewDesk(n.req.user, n.req.symbol, n.req.target, n.req.capital);
      CommitPutKeeps(left, n.req.bot, desk, History(desk, [], desk));
    case Drop => CommitDropKeeps(left, n.req.bot);
  }

  lemma BeginKeeps(s: Sys, p: Pid, req: Request)
    requires Orderly(s) && Enabled(s, Begin(p, req))
    ensures Orderly(Apply(s, Begin(p, req)))
  {
    var n := SessionFor(req);
    var sessions := s.sessions[p := n];
    forall id | id in s.owners ensures DraftOk(id, s.owners, s.keys, sessions) {
      assert DraftOk(id, s.owners, s.keys, s.sessions);
    }
    ClaimsMove(s.sessions, s.owners, p, n);
    HoldsMove(s.sessions, s.locks, s.desks, p, n);
    WritesMove(s.sessions, s.locks, s.desks, s.hist, p, n);
    forall b | b in s.locks ensures LockOk(b, s.locks, sessions, s.desks, s.hist) {
      assert LockOk(b, s.locks, s.sessions, s.desks, s.hist);
    }
  }

  // ---- Every step, every run --------------------------------------------------------------------------

  lemma PassKeeps(s: Sys, p: Pid)
    requires Orderly(s) && Enabled(s, Gate(p, Pass))
    ensures Orderly(ApplyGate(s, p, Pass))
  {
    SessionFacts(s, p);
    SessionMoves(s, p, s.sessions[p].(phase := Sent, call := Some(|s.calls|)), s.drafts);
  }

  lemma GateKeeps(s: Sys, p: Pid, verdict: GateVerdict)
    requires Orderly(s) && Enabled(s, Gate(p, verdict))
    ensures Orderly(ApplyGate(s, p, verdict))
  {
    match verdict
    case Pass => PassKeeps(s, p);
    case Break => SafetyNetKeeps(s, p);
    case Misspelled => SessionFacts(s, p); FinishKeeps(s, p, NoWrite, s.drafts);
    case _ =>
      if s.sessions[p].req.Transition? {
        FinishLiveKeeps(s, p, if verdict.Off? then Disabled else Rejected, Some(OrderStatus.REJECTED));
      } else {
        FinishOrderKeeps(s, p, OrderStatus.REJECTED);
      }
  }

  lemma HearingKeeps(s: Sys, step: Step)
    requires Orderly(s) && Enabled(s, step) && (step.Reply? || step.Confirm? || step.Reconcile?)
    ensures Orderly(Apply(s, step))
  {
    var p := step.p;
    CallerFacts(s, p);
    if step.Reconcile? {
      FinishLiveKeeps(s, p, if step.heard.Ack? then OutcomeOfStatus(step.heard.status)
                            else if step.heard.Failure? then Unresolved else Malformed, None);
    } else if step.heard.Garbled? {
      SafetyNetKeeps(s, p);
    } else if step.Confirm? {
      LearnKeeps(s, p, if step.heard.Ack? then step.heard.status else OrderStatus.FAILED);
    } else if step.heard.Ack? {
      LearnKeeps(s, p, step.heard.status);
    } else {
      AwaitingKeeps(s, p, Doubtful, s.drafts);
    }
  }

  lemma SimulateKeeps(s: Sys, p: Pid, market: SimulationLedger.Market)
    requires Orderly(s) && Enabled(s, Simulate(p, market))
    ensures Orderly(ApplySimulate(s, p, market))
  {
    SessionFacts(s, p);
    var t := ApplySimulate(s, p, market);
    FinishKeeps(s, p, t.sessions[p].write, t.drafts);
  }

  lemma StepKeepsOrder(s: Sys, step: Step)
    requires Orderly(s)
    ensures Orderly(Next(s, step))
  {
    if Enabled(s, step) {
      match step
      case Begin(p, req) => BeginKeeps(s, p, req);
      case Reserve(p) => ReserveKeeps(s, p);
      case Load(p) => LoadKeeps(s, p);
      case Decline(p, garbled) => FinishLiveKeeps(s, p, if garbled then Malformed else Rejected, None);
      case ReserveInner(p) => ReserveInnerKeeps(s, p);
      case Simulate(p, market) => SimulateKeeps(s, p, market);
      case Gate(p, verdict) => GateKeeps(s, p, verdict);
      case Accept(call, fate) =>
      case Evolve(cid, fate) =>
      case Reply(p, heard) => HearingKeeps(s, step);
      case Confirm(p, heard) => HearingKeeps(s, step);
      case Reconcile(p, heard) => HearingKeeps(s, step);
      case Commit(p) => CommitKeeps(s, p);
      case Crash(p) => LeaveKeeps(s, p);
    }
  }

  lemma {:induction false} RunsAreOrderly(steps: seq<Step>)
    ensures Orderly(Reached(steps))
  {
    if steps != [] {
      RunsAreOrderly(steps[..|steps| - 1]);
      StepKeepsOrder(Reached(steps[..|steps| - 1]), steps[|steps| - 1]);
    }
  }
}
