/** Only a transition that came out unresolved lets a live bot and the exchange drift apart. */
module ProtocolTrouble {
  import opened Common
  import opened Idempotency
  import opened BotMachine
  import opened Requests
  import opened Protocol
  import SimulationLedger
  import opened ProtocolSafety
  import opened ProtocolCalls
  import opened ProtocolTrading
  import opened ProtocolTheorems

  /** A live transition whose order could not be settled. */
  ghost predicate Troubling(e: Event) {
    e.LiveTransition? && (e.outcome.Unresolved? || e.outcome.Raised? || e.outcome.Malformed?)
  }

  ghost predicate Troubled(events: seq<Event>) {
    exists i :: 0 <= i < |events| && Troubling(events[i])
  }

  lemma TroubleStays(events: seq<Event>, e: Event)
    ensures Troubled(events) || Troubling(e) ==> Troubled(events + [e])
  {
    if Troubled(events) {
      var i :| 0 <= i < |events| && Troubling(events[i]);
      assert Troubling((events + [e])[i]);
    } else if Troubling(e) {
      assert Troubling((events + [e])[|events|]);
    }
  }

  /** A live bot is in ERROR, or between states, only after trouble. */
  lemma {:induction false} LiveErrorMeansTrouble(d: Desk, events: seq<Event>)
    requires d.bot.mode == SIMULATION
    requires var bot := BotMachine.Run(d, events).bot; bot.mode == LIVE && bot.status in {ERROR, PAUSING, RESUMING}
    ensures Troubled(events)
  {
    if events != [] {
      var front, e := events[..|events| - 1], events[|events| - 1];
      assert events == front + [e];
      var before := BotMachine.Run(d, front).bot;
      if before.mode == LIVE && before.status in {ERROR, PAUSING, RESUMING} {
        LiveErrorMeansTrouble(d, front);
      } else {
        assert Troubling(e);
      }
      TroubleStays(front, e);
    }
  }

  // ---- A bot that was stopped without trouble ---------------------------------------------------------

  /** Stopped as a live bot after a life without trouble. */
  ghost predicate StoppedCleanly(h: History) {
    h.last.bot.mode == LIVE && h.last.bot.status == STOPPED && !Troubled(h.events)
  }

  /** A bot at rest with this holding: every order sent was accepted and settled. */
  function AtRest(holding: real): View { Known(Bot(0, "", LIVE, ACTIVE, holding, holding)) }

  ghost predicate RestsAt(b: nat, h: History, calls: seq<Call>, book: seq<Call>, fate: Fates) {
    StoppedCleanly(h) ==> Fits(b, AtRest(h.last.bot.current), calls, book, fate)
  }

  /** The history as it will be once the session that holds the row commits. */
  ghost function PendingOf(h: History, holder: Option<Session>): History {
    if holder.Some? && holder.value.write.Put? then Extended(h, holder.value.write.desk, holder.value.write.event)
        else h
  }

  ghost predicate RestsBoth(b: nat, h: History, holder: Option<Session>, calls: seq<Call>, book: seq<Call>,
                            fate: Fates) {
    RestsAt(b, h, calls, book, fate) && RestsAt(b, PendingOf(h, holder), calls, book, fate)
  }

  ghost predicate Rests(s: Sys, b: nat) {
    b in s.hist ==> RestsBoth(b, s.hist[b], HolderOf(s, b), s.calls, s.book, s.fate)
  }

  // ---- The exchange moves ---------------------------------------------------------------------------------

  lemma AcceptRests(s: Sys, call: nat, f: Fate, b: nat, h: History)
    requires Recorded(s) && RestsAt(b, h, s.calls, s.book, s.fate) && Enabled(s, Accept(call, f))
    ensures RestsAt(b, h, s.calls, s.book + [s.calls[call]], s.fate[s.calls[call].cid := f])
  {
    if StoppedCleanly(h) {
      AcceptFits(b, AtRest(h.last.bot.current), s.calls, s.book, s.fate, call, f);
    }
  }

  lemma EvolveRests(s: Sys, cid: KeyId, f: Fate, b: nat, h: History)
    requires RestsAt(b, h, s.calls, s.book, s.fate) && Enabled(s, Evolve(cid, f))
    ensures RestsAt(b, h, s.calls, s.book, s.fate[cid := f])
  {
    if StoppedCleanly(h) {
      FateMoves(b, AtRest(h.last.bot.current), s.calls, s.book, s.fate, s.fate[cid := f]);
    }
  }

  lemma CallRests(b: nat, h: History, calls: seq<Call>, book: seq<Call>, fate: Fates, c: Call)
    requires RestsAt(b, h, calls, book, fate) && !IsFor(c, b)
    ensures RestsAt(b, h, calls + [c], book, fate)
  {
    if StoppedCleanly(h) {
      CallFitsOthers(b, AtRest(h.last.bot.current), calls, book, fate, c);
    }
  }

  // ---- One session moves -------------------------------------------------------------------------------------

  lemma UntouchedRests(s: Sys, t: Sys, b: nat)
    requires Rests(s, b) && SameExchange(s, t) && HolderOf(t, b) == HolderOf(s, b)
    requires (b in t.hist <==> b in s.hist) && (b in t.hist ==> t.hist[b] == s.hist[b])
    ensures Rests(t, b)
  {
  }

  /** Whoever is about to end the row cleanly stopped leaves it at rest. */
  ghost predicate EndsAtRest(b: nat, h: History, n: Session, calls: seq<Call>, book: seq<Call>, fate: Fates) {
    n.write.Put? ==> RestsAt(b, Extended(h, n.write.desk, n.write.event), calls, book, fate)
  }

  lemma HolderRests(s: Sys, t: Sys, p: Pid, b: nat)
    requires Rests(s, b) && Uncommitted(s, t) && LockedBy(t.locks, b, p) && p in t.sessions && b in s.hist
    requires EndsAtRest(b, s.hist[b], t.sessions[p], s.calls, s.book, s.fate)
    ensures Rests(t, b)
  {
  }

  lemma LocalRests(s: Sys, t: Sys, p: Pid, b: nat)
    requires Orderly(s) && Rests(s, b) && Local(s, t, p)
    requires LockedBy(s.locks, b, p) && b in s.hist ==> EndsAtRest(b, s.hist[b], t.sessions[p], s.calls, s.book, s.fate)
    ensures Rests(t, b)
  {
    if LockedBy(s.locks, b, p) && b in s.hist {
      HolderRests(s, t, p, b);
    } else if !LockedBy(s.locks, b, p) {
      UntouchedRests(s, t, b);
    }
  }

  /** No transition ends in STOPPED. */
  lemma TransitionNeverStops(d: Desk, op: Op, outcome: Outcome, h: History)
    requires d.bot.mode == LIVE && d.bot.status == From(op)
    ensures var event := LiveTransition(op, outcome); !StoppedCleanly(Extended(h, BotMachine.Step(d, event), event))
  {
  }

  lemma LiveEndRests(s: Sys, p: Pid, outcome: Outcome, returned: Option<OrderStatus>, b: nat)
    requires Orderly(s) && Rests(s, b) && Moving(s, p) && s.sessions[p].row.value.bot.mode == LIVE
    ensures Rests(FinishLive(s, p, outcome, returned), b)
  {
    var n := s.sessions[p];
    SessionFacts(s, p);
    if b in s.hist {
      TransitionNeverStops(n.row.value, n.req.op, outcome, s.hist[b]);
    }
    LocalRests(s, FinishLive(s, p, outcome, returned), p, b);
  }

  lemma LearnRests(s: Sys, p: Pid, status: OrderStatus, b: nat)
    requires Orderly(s) && Rests(s, b) && Awaits(s, p) && Knows(s, p)
    ensures Rests(Learn(s, p, status), b)
  {
    CallerFacts(s, p);
    SessionFacts(s, p);
    if s.sessions[p].req.Transition? && status !in {NEW, PARTIALLY_FILLED} {
      LiveEndRests(s, p, OutcomeOfStatus(status), Some(status), b);
    } else {
      LocalRests(s, Learn(s, p, status), p, b);
    }
  }

  lemma SafetyNetRests(s: Sys, p: Pid, b: nat)
    requires Orderly(s) && Rests(s, b) && Knows(s, p)
    requires s.sessions[p].req.PlaceOrder? || (Moving(s, p) && s.sessions[p].row.value.bot.mode == LIVE)
    ensures Rests(SafetyNet(s, p), b)
  {
    if s.sessions[p].req.Transition? {
      LiveEndRests(s, p, Outcome.Raised, Some(OrderStatus.FAILED), b);
    } else {
      LocalRests(s, SafetyNet(s, p), p, b);
    }
  }

  lemma HearingRests(s: Sys, step: Step, b: nat)
    requires Orderly(s) && Rests(s, b) && Enabled(s, step) && (step.Reply? || step.Confirm? || step.Reconcile?)
    ensures Rests(Apply(s, step), b)
  {
    var p := step.p;
    CallerFacts(s, p);
    if step.Reconcile? {
      LiveEndRests(s, p, if step.heard.Ack? then OutcomeOfStatus(step.heard.status)
                         else if step.heard.Failure? then Unresolved else Malformed, None, b);
    } else if step.heard.Garbled? {
      SafetyNetRests(s, p, b);
    } else if step.Confirm? {
      LearnRests(s, p, if step.heard.Ack? then step.heard.status else OrderStatus.FAILED, b);
    } else if step.heard.Ack? {
      LearnRests(s, p, step.heard.status, b);
    } else {
      SessionFacts(s, p);
      LocalRests(s, At(s, p, Doubtful), p, b);
    }
  }

  lemma StrangerPasses(s: Sys, t: Sys, b: nat, c: Call)
    requires Rests(s, b) && !IsFor(c, b) && HolderOf(t, b) == HolderOf(s, b) && t.hist == s.hist
    requires t.calls == s.calls + [c] && t.book == s.book && t.fate == s.fate
    ensures Rests(t, b)
  {
    if b in s.hist {
      CallRests(b, s.hist[b], s.calls, s.book, s.fate, c);
      CallRests(b, PendingOf(s.hist[b], HolderOf(s, b)), s.calls, s.book, s.fate, c);
    }
  }

  /** The new call is for a bot that is not stopped. */
  lemma HolderPasses(t: Sys, p: Pid, b: nat)
    requires b in t.hist ==> !StoppedCleanly(t.hist[b])
    requires LockedBy(t.locks, b, p) && p in t.sessions && t.sessions[p].write == NoWrite
    ensures Rests(t, b)
  {
  }

  lemma PassRests(s: Sys, p: Pid, b: nat, t: Sys)
    requires Orderly(s) && Rests(s, b) && Enabled(s, Gate(p, Pass)) && t == ApplyGate(s, p, Pass)
    ensures Rests(t, b)
  {
    var n := s.sessions[p];
    if n.req.Transition? && n.req.bot == b {
      MoverHoldsItsRow(s, p, b);
      HolderFacts(s, p, b);
      UnwrittenView(s, p, b);
      HolderPasses(t, p, b);
    } else {
      NotItsHolder(s, p, b);
      StrangerPasses(s, t, b, CallOf(n, |s.calls|));
    }
  }

  lemma GateRests(s: Sys, p: Pid, verdict: GateVerdict, b: nat)
    requires Orderly(s) && Rests(s, b) && Enabled(s, Gate(p, verdict))
    ensures Rests(ApplyGate(s, p, verdict), b)
  {
    if verdict.Pass? {
      PassRests(s, p, b, ApplyGate(s, p, verdict));
    } else if verdict.Break? {
      SafetyNetRests(s, p, b);
    } else if s.sessions[p].req.Transition? {
      LiveEndRests(s, p, if verdict.Off? then Disabled else Outcome.Rejected, Some(OrderStatus.REJECTED), b);
    } else {
      LocalRests(s, ApplyGate(s, p, verdict), p, b);
    }
  }

  lemma SimulateRests(s: Sys, p: Pid, market: SimulationLedger.Market, b: nat)
    requires Orderly(s) && Rests(s, b) && Enabled(s, Simulate(p, market))
    ensures Rests(ApplySimulate(s, p, market), b)
  {
    SimulationStaysOff(s.sessions[p].row.value, s.sessions[p].req.op, market);
    LocalRests(s, ApplySimulate(s, p, market), p, b);
  }

  lemma EarlyStepRests(s: Sys, step: Step, b: nat)
    requires Orderly(s) && Rests(s, b) && Enabled(s, step) && (step.Begin? || step.Reserve?)
    ensures Rests(Apply(s, step), b)
  {
    NoLockYet(s, step.p, b);
    UntouchedRests(s, Apply(s, step), b);
  }

  /** A session moves on without writing. */
  lemma WaitingRests(s: Sys, t: Sys, p: Pid, b: nat)
    requires Rests(s, b) && Uncommitted(s, t) && t.locks == s.locks && p in t.sessions
    requires t.sessions == s.sessions[p := t.sessions[p]] && t.sessions[p].write == NoWrite
    ensures Rests(t, b)
  {
    if !LockedBy(s.locks, b, p) {
      UntouchedRests(s, t, b);
    }
  }

  lemma ReserveInnerRests(s: Sys, p: Pid, b: nat)
    requires Orderly(s) && Rests(s, b) && Enabled(s, ReserveInner(p))
    ensures Rests(ApplyReserveInner(s, p), b)
  {
    ReserveInnerShape(s, p);
    SessionFacts(s, p);
    WaitingRests(s, ApplyReserveInner(s, p), p, b);
  }

  // ---- Stopping --------------------------------------------------------------------------------------------------

  /** A stop, an update or a promotion ends cleanly stopped only from a quiet bot. */
  lemma ManagedRests(b: nat, h: History, event: Event, calls: seq<Call>, book: seq<Call>, fate: Fates)
    requires HistoryOk(h) && IsNew(h.first) && Fits(b, Known(h.last.bot), calls, book, fate)
    requires event.UpdateTarget? || event.Stop? || event.GoLive?
    requires RestsAt(b, h, calls, book, fate)
    ensures RestsAt(b, Extended(h, BotMachine.Step(h.last, event), event), calls, book, fate)
  {
    var after := Extended(h, BotMachine.Step(h.last, event), event);
    if StoppedCleanly(after) {
      TroubleStays(h.events, event);
      if h.last.bot.mode == LIVE && h.last.bot.status in {ERROR, PAUSING, RESUMING} {
        LiveErrorMeansTrouble(h.first, h.events);
      }
    }
  }

  lemma ManagedEndsAtRest(s: Sys, b: nat, n: Session)
    requires Traded(s, b) && Rests(s, b) && b in s.desks && b !in s.locks && n.write.Put?
    requires n.write.event.UpdateTarget? || n.write.event.Stop? || n.write.event.GoLive?
    requires n.write.desk == BotMachine.Step(s.desks[b], n.write.event)
    ensures b in s.hist && EndsAtRest(b, s.hist[b], n, s.calls, s.book, s.fate)
  {
    DeskLifecycle(s, b);
    assert HistoryOk(s.hist[b]);
    ManagedRests(b, s.hist[b], n.write.event, s.calls, s.book, s.fate);
  }

  lemma NothingFoundRests(s: Sys, p: Pid, b: nat, l: Landing)
    requires Rests(s, b) && p in s.sessions && !LockedBy(s.locks, b, p)
    ensures Rests(Land(s, p, l), b)
  {
    LandShape(s, p, l, Land(s, p, l));
    UntouchedRests(s, Land(s, p, l), b);
  }

  lemma LoadedRests(s: Sys, p: Pid, t: Sys)
    requires Enabled(s, Load(p)) && (s.sessions[p].req.Open? || Finds(s, s.sessions[p].req)) && t == ApplyLoad(s, p)
    requires var b := s.sessions[p].req.bot; Traded(s, b) && Rests(s, b) && b in s.hist
    ensures Rests(t, s.sessions[p].req.bot)
  {
    var b := s.sessions[p].req.bot;
    LoadShape(s, p, t);
    SessionFacts(s, p);
    if t.sessions[p].write.Put? {
      ManagedEndsAtRest(s, b, t.sessions[p]);
    }
    HolderRests(s, t, p, b);
  }

  lemma LoadRests(s: Sys, p: Pid, b: nat, t: Sys)
    requires Traded(s, b) && Rests(s, b) && Enabled(s, Load(p)) && t == ApplyLoad(s, p)
    ensures Rests(t, b)
  {
    var req := s.sessions[p].req;
    NoLockYet(s, p, b);
    if !req.Open? && !Finds(s, req) {
      NothingFoundRests(s, p, b, Ending(NoWrite, BotReceipt(None, Declined)));
    } else if b != req.bot {
      LoadSparesOthers(s, p, b, t);
      UntouchedRests(s, t, b);
    } else if b in s.hist {
      LoadedRests(s, p, t);
    }
  }

  // ---- Ending a session -----------------------------------------------------------------------------------

  /** What a commit makes of the row it holds: what was pending, or a row that is not a stopped live bot. */
  lemma CommittedHistory(s: Sys, p: Pid, b: nat, t: Sys)
    requires Orderly(s) && Enabled(s, Commit(p)) && LockedBy(s.locks, b, p) && t == ApplyCommit(s, p) && b in t.hist
    ensures !StoppedCleanly(t.hist[b]) || (b in s.hist && t.hist[b] == PendingOf(s.hist[b], HolderOf(s, b)))
  {
    SessionFacts(s, p);
    assert LockOk(b, s.locks, s.sessions, s.desks, s.hist);
    if s.sessions[p].write.Put? {
      assert DeskOk(b, s.desks, s.hist);
    }
  }

  lemma FreedRests(s: Sys, t: Sys, b: nat)
    requires Rests(s, b) && SameExchange(s, t) && b !in t.locks
    requires b in t.hist ==>
               !StoppedCleanly(t.hist[b]) || (b in s.hist && t.hist[b] == PendingOf(s.hist[b], HolderOf(s, b)))
    ensures Rests(t, b)
  {
  }

  lemma CommitRests(s: Sys, p: Pid, b: nat, t: Sys)
    requires Orderly(s) && Rests(s, b) && Enabled(s, Commit(p)) && t == ApplyCommit(s, p)
    ensures Rests(t, b)
  {
    CommitShape(s, p);
    if LockedBy(s.locks, b, p) {
      if b in t.hist {
        CommittedHistory(s, p, b, t);
      }
      FreedRests(s, t, b);
    } else {
      SessionFacts(s, p);
      CommitSparesOthers(s, p, b);
      OthersHold(s, p, b, t.locks, t.sessions);
      UntouchedRests(s, t, b);
    }
  }

  lemma CrashRests(s: Sys, p: Pid, b: nat, t: Sys)
    requires Rests(s, b) && Enabled(s, Crash(p)) && t == Leave(s, p)
    ensures Rests(t, b)
  {
    if !LockedBy(s.locks, b, p) {
      OthersHold(s, p, b, t.locks, t.sessions);
      UntouchedRests(s, t, b);
    }
  }

  lemma ExchangeRests(s: Sys, step: Step, b: nat)
    requires Recorded(s) && Rests(s, b) && Enabled(s, step) && (step.Accept? || step.Evolve?)
    ensures Rests(Apply(s, step), b)
  {
    if b in s.hist {
      match step
      case Accept(call, f) =>
        AcceptRests(s, call, f, b, s.hist[b]);
        AcceptRests(s, call, f, b, PendingOf(s.hist[b], HolderOf(s, b)));
      case Evolve(cid, f) =>
        EvolveRests(s, cid, f, b, s.hist[b]);
        EvolveRests(s, cid, f, b, PendingOf(s.hist[b], HolderOf(s, b)));
    }
  }

  lemma StepRests(s: Sys, step: Step, b: nat)
    requires Traded(s, b) && Rests(s, b)
    ensures Rests(Next(s, step), b)
  {
    if Enabled(s, step) {
      match step
      case Load(p) => LoadRests(s, p, b, ApplyLoad(s, p));
      case Decline(p, garbled) => LiveEndRests(s, p, if garbled then Malformed else Outcome.Rejected, None, b);
      case Simulate(p, market) => SimulateRests(s, p, market, b);
      case Gate(p, verdict) => GateRests(s, p, verdict, b);
      case Accept(_, _) => ExchangeRests(s, step, b);
      case Evolve(_, _) => ExchangeRests(s, step, b);
      case Reply(_, _) => HearingRests(s, step, b);
      case Confirm(_, _) => HearingRests(s, step, b);
      case Reconcile(_, _) => HearingRests(s, step, b);
      case Commit(p) => CommitRests(s, p, b, ApplyCommit(s, p));
      case Crash(p) => CrashRests(s, p, b, Leave(s, p));
      case ReserveInner(p) => ReserveInnerRests(s, p, b);
      case _ => EarlyStepRests(s, step, b);
    }
  }

  /** As long as no rollback comes after a call for it, a live bot that was stopped without trouble
      stays settled with the exchange. */
  lemma {:induction false} RunsRest(steps: seq<Step>, b: nat)
    requires KeepsCallsOf(steps, b)
    ensures Rests(Reached(steps), b)
  {
    if steps != [] {
      var front := steps[..|steps| - 1];
      KeepsCallsOfFront(steps, b);
      RunsRest(front, b);
      RunsTrade(front, b);
      StepRests(Reached(front), steps[|steps| - 1], b);
    }
  }

  /** As long as no rollback comes after a call for it, a live bot with no open transition can hold
      anything but what the exchange executed for it only if one of its transitions came out
      unresolved: in ERROR, between states, or STOPPED after that. A bot stopped out of ACTIVE or
      PAUSED still agrees. */
  lemma OnlyTroubleBreaksAgreement(steps: seq<Step>, b: nat)
    requires KeepsCallsOf(steps, b)
    requires var s := Reached(steps); b in s.desks && b !in s.locks && s.desks[b].bot.mode == LIVE
    ensures var s := Reached(steps);
            && b in s.hist
            && (s.desks[b].bot.current == NetExecuted(Of(s.book, b), s.fate) || Troubled(s.hist[b].events))
  {
    var s := Reached(steps);
    RunsTrade(steps, b);
    RunsRest(steps, b);
    DeskLifecycle(s, b);
    if s.desks[b].bot.status in {ACTIVE, PAUSED} {
      AgreementWithExchange(steps, b);
    } else if s.desks[b].bot.status == STOPPED {
      if !Troubled(s.hist[b].events) {
        assert RestsAt(b, s.hist[b], s.calls, s.book, s.fate);
        QuietAgrees(s.calls, s.book, s.fate, b, s.desks[b].bot.current);
      }
    } else {
      assert HistoryOk(s.hist[b]) && IsNew(s.hist[b].first);
      LiveErrorMeansTrouble(s.hist[b].first, s.hist[b].events);
    }
  }
}
