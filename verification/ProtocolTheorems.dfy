/** The promises of the trading core, for every interleaving. */
module ProtocolTheorems {
  import opened Common
  import opened Idempotency
  import opened Alternation
  import opened BotMachine
  import opened SimulationLedger
  import opened Requests
  import opened Protocol
  import opened ProtocolSafety
  import opened ProtocolCalls
  import opened ProtocolTrading

  // ---- At most one effect per key -----------------------------------------------------------------

  /** Crashes included: the exchange never holds two orders of one (user, endpoint, key), none
      executes more than was asked, and each was asked for: some session, opened with a request,
      called with that request's id, side and quantity (or those of the bot row it had locked)
      while the key behind the id was claimed, uncommitted and its own. */
  lemma AtMostOneOrder(steps: seq<Protocol.Step>)
    ensures var s := Reached(steps);
            && (forall i, j :: 0 <= i < j < |s.book| ==> s.book[i].cid != s.book[j].cid)
            && (forall c :: c in s.book ==>
                  && c in s.calls && c.cid in s.fate && 0.0 <= s.fate[c.cid].executed <= c.quantity
                  && exists j, k :: CalledAt(steps, c, j, k))
  {
    RunsKeepBook(steps);
    var s := Reached(steps);
    forall c | c in s.book
      ensures c in s.calls && c.cid in s.fate && 0.0 <= s.fate[c.cid].executed <= c.quantity
      ensures exists j, k :: CalledAt(steps, c, j, k)
    {
      var i :| 0 <= i < |s.book| && s.book[i] == c;
      assert EntryOk(s.book[i], s.calls, s.fate);
      CallsWereAsked(steps, c.index);
    }
  }

  /** `create_order` itself is called at most once per (user, endpoint, key), as long as no
      session that has called under it rolls back. */
  lemma AtMostOneCall(steps: seq<Protocol.Step>, id: KeyId)
    requires KeepsCalls(steps, id)
    ensures CallsOnce(Reached(steps).calls, id)
  {
    RunsCallOnce(steps, id);
  }

  // ---- Agreement with the exchange --------------------------------------------------------------------

  /** Base quantity the exchange executed for these orders, BUY minus SELL, whatever their state. */
  function NetExecuted(cs: seq<Call>, fate: Fates): real {
    if cs == [] then 0.0
    else
      var c := cs[|cs| - 1];
      NetExecuted(cs[..|cs| - 1], fate) + if c.cid in fate then Signed(Leg(c.side, fate[c.cid].executed)) else 0.0
  }

  lemma {:induction false} SettledNet(cs: seq<Call>, fate: Fates)
    requires AllSettled(cs, fate)
    requires forall i :: 0 <= i < |cs| ==> cs[i].cid in fate && Plausible(cs[i], fate[cs[i].cid])
    ensures NetExecuted(cs, fate) == Net(FilledLegs(cs, fate))
  {
    if cs != [] {
      var front, c := cs[..|cs| - 1], cs[|cs| - 1];
      assert forall i :: 0 <= i < |front| ==> Settled(front[i], fate) by {
        assert forall i :: 0 <= i < |front| ==> front[i] == cs[i] && Settled(cs[i], fate);
      }
      SettledNet(front, fate);
      assert Settled(c, fate);
      if fate[c.cid].status == FILLED {
        ExposureSnoc(FilledLegs(front, fate), Leg(c.side, c.quantity));
      } else {
        assert FilledLegs(front, fate) + [] == FilledLegs(front, fate);
      }
    }
  }

  lemma BookedArePlausible(calls: seq<Call>, book: seq<Call>, fate: Fates, b: nat, B: seq<Call>)
    requires BookOk(calls, book, fate) && B == Of(book, b)
    ensures forall i :: 0 <= i < |B| ==> B[i].cid in fate && Plausible(B[i], fate[B[i].cid])
  {
    OfMembers(book, b);
    forall i | 0 <= i < |B| ensures B[i].cid in fate && Plausible(B[i], fate[B[i].cid]) {
      assert B[i] in book;
      var k :| 0 <= k < |book| && book[k] == B[i];
      assert EntryOk(book[k], calls, fate);
    }
  }

  lemma QuietAgrees(calls: seq<Call>, book: seq<Call>, fate: Fates, b: nat, q: real)
    requires BookOk(calls, book, fate) && Quiet(Of(calls, b), Of(book, b), fate, q)
    ensures q == NetExecuted(Of(book, b), fate)
  {
    var B := Of(book, b);
    BookedArePlausible(calls, book, fate, b, B);
    SettledNet(B, fate);
    UnbrokenMeansAlternating(FilledLegs(B, fate));
  }

  /** As long as no rollback comes after a call for it, a live bot that is committed as ACTIVE or
      PAUSED and has no open transition holds exactly what the exchange executed for its orders. */
  lemma AgreementWithExchange(steps: seq<Protocol.Step>, b: nat)
    requires KeepsCallsOf(steps, b)
    requires var s := Reached(steps);
             && b in s.desks && b !in s.locks
             && s.desks[b].bot.mode == LIVE && s.desks[b].bot.status in {ACTIVE, PAUSED}
    ensures var s := Reached(steps); s.desks[b].bot.current == NetExecuted(Of(s.book, b), s.fate)
  {
    var s := Reached(steps);
    RunsTrade(steps, b);
    DeskLifecycle(s, b);
    QuietAgrees(s.calls, s.book, s.fate, b, s.desks[b].bot.current);
  }

  // ---- Lock safety ------------------------------------------------------------------------------------------

  ghost predicate InOrder(C: seq<Call>, B: seq<Call>, fate: Fates) {
    && (B == C || (C != [] && B == C[..|C| - 1]))
    && (C != [] ==> AllSettled(C[..|C| - 1], fate))
    && Alternates(FilledLegs(B, fate))
  }

  lemma QuietIsInOrder(C: seq<Call>, B: seq<Call>, fate: Fates, q: real)
    requires Quiet(C, B, fate, q)
    ensures InOrder(C, B, fate)
  {
    UnbrokenMeansAlternating(FilledLegs(C, fate));
    if C != [] {
      var P := C[..|C| - 1];
      forall i | 0 <= i < |P| ensures Settled(P[i], fate) {
        assert Settled(C[i], fate);
      }
    }
  }

  lemma BusyIsInOrder(C: seq<Call>, B: seq<Call>, fate: Fates, q: real)
    requires Busy(C, B, fate, q)
    ensures InOrder(C, B, fate)
  {
    var P, c := C[..|C| - 1], C[|C| - 1];
    assert C == P + [c];
    ExposedSnoc(P, c, fate);
    UnbrokenMeansAlternating(FilledLegs(P, fate));
    UnbrokenMeansAlternating(FilledLegs(C, fate));
  }

  lemma FittingIsInOrder(b: nat, view: View, calls: seq<Call>, book: seq<Call>, fate: Fates)
    requires Fits(b, view, calls, book, fate)
    ensures InOrder(Of(calls, b), Of(book, b), fate)
  {
    var C, B := Of(calls, b), Of(book, b);
    match view
    case InFlight(q, call) => BusyIsInOrder(C, B, fate, q);
    case Unborn =>
    case Known(bot) =>
      if C != [] {
        if Quiet(C, B, fate, bot.current) {
          QuietIsInOrder(C, B, fate, bot.current);
        } else {
          BusyIsInOrder(C, B, fate, bot.current);
        }
      }
  }

  /** For any number of concurrent pauses and resumes, as long as no rollback comes after a call
      for the bot: its orders reach the exchange in the order they were sent, none is sent before
      the one before it was FILLED or REJECTED, and the filled ones alternate BUY, SELL with equal
      quantities. */
  lemma LockSafety(steps: seq<Protocol.Step>, b: nat)
    requires KeepsCallsOf(steps, b)
    ensures var s := Reached(steps); InOrder(Of(s.calls, b), Of(s.book, b), s.fate)
  {
    var s := Reached(steps);
    RunsTrade(steps, b);
    FittingIsInOrder(b, RowView(LastOf(s, b), HolderOf(s, b)), s.calls, s.book, s.fate);
  }

  // ---- Every bot lives a sequential life ------------------------------------------------------------------------

  /** Crashes included: although every session commits the row it computed, and whatever others
      did in between, a committed bot is what some sequence of completed operations makes of a
      new one: no update is lost, and the bot keeps the lifecycle and its ledger. */
  lemma EveryBotIsSequential(steps: seq<Protocol.Step>, b: nat)
    requires b in Reached(steps).desks
    ensures var s := Reached(steps);
            && b in s.hist && IsNew(s.hist[b].first)
            && s.desks[b] == BotMachine.Run(s.hist[b].first, s.hist[b].events)
            && Lifecycle(s.desks[b].bot) && Coupled(s.desks[b])
  {
    var s := Reached(steps);
    RunsAreOrderly(steps);
    assert DeskOk(b, s.desks, s.hist) && HistoryOk(s.hist[b]);
    var d := s.hist[b].first;
    CoupledOverRuns(d.bot.user, d.bot.symbol, d.bot.target, d.ledger.initialCapital, s.hist[b].events);
  }

  // ---- No committed bot is between states ---------------------------------------------------------------------------

  /** No reply was uninterpretable where nothing catches it. */
  predicate WellFormed(step: Protocol.Step) {
    && (step.Reconcile? ==> !step.heard.Garbled?)
    && (step.Decline? ==> !step.garbled)
  }

  ghost predicate CleanHistory(h: History) {
    forall i :: 0 <= i < |h.events| ==> !IsMalformed(h.events[i])
  }

  ghost predicate CleanWrite(n: Session) { n.write.Put? ==> !IsMalformed(n.write.event) }

  ghost predicate Clean(s: Sys) {
    && (forall p :: p in s.sessions ==> CleanWrite(s.sessions[p]))
    && (forall b :: b in s.hist ==> CleanHistory(s.hist[b]))
  }

  /** One session moved and left a clean write, or none. */
  lemma SessionStaysClean(s: Sys, t: Sys, p: Pid)
    requires Clean(s) && t.hist == s.hist && p in t.sessions && t.sessions == s.sessions[p := t.sessions[p]]
    requires CleanWrite(t.sessions[p])
    ensures Clean(t)
  {
  }

  lemma LiveEndIsClean(s: Sys, p: Pid, outcome: Outcome, returned: Option<OrderStatus>)
    requires Clean(s) && Moving(s, p) && !outcome.Malformed?
    ensures Clean(FinishLive(s, p, outcome, returned))
  {
    SessionStaysClean(s, FinishLive(s, p, outcome, returned), p);
  }

  lemma LearningIsClean(s: Sys, p: Pid, status: OrderStatus)
    requires Clean(s) && Knows(s, p)
    ensures Clean(Learn(s, p, status))
  {
    if s.sessions[p].req.Transition? && status !in {NEW, PARTIALLY_FILLED} {
      LiveEndIsClean(s, p, OutcomeOfStatus(status), Some(status));
    } else {
      assert CleanWrite(s.sessions[p]);
      SessionStaysClean(s, Learn(s, p, status), p);
    }
  }

  lemma SafetyNetIsClean(s: Sys, p: Pid)
    requires Clean(s) && Knows(s, p)
    ensures Clean(SafetyNet(s, p))
  {
    if s.sessions[p].req.Transition? {
      LiveEndIsClean(s, p, Outcome.Raised, Some(OrderStatus.FAILED));
    } else {
      SessionStaysClean(s, SafetyNet(s, p), p);
    }
  }

  lemma GateIsClean(s: Sys, p: Pid, verdict: GateVerdict)
    requires Clean(s) && Enabled(s, Gate(p, verdict))
    ensures Clean(ApplyGate(s, p, verdict))
  {
    assert CleanWrite(s.sessions[p]);
    if verdict.Break? {
      SafetyNetIsClean(s, p);
    } else if !verdict.Pass? && s.sessions[p].req.Transition? {
      LiveEndIsClean(s, p, if verdict.Off? then Disabled else Outcome.Rejected, Some(OrderStatus.REJECTED));
    } else {
      SessionStaysClean(s, ApplyGate(s, p, verdict), p);
    }
  }

  lemma HearingIsClean(s: Sys, step: Protocol.Step)
    requires Clean(s) && Enabled(s, step) && WellFormed(step)
    requires step.Reply? || step.Confirm? || step.Reconcile?
    ensures Clean(Apply(s, step))
  {
    if step.Reconcile? {
      LiveEndIsClean(s, step.p, if step.heard.Ack? then OutcomeOfStatus(step.heard.status) else Unresolved, None);
    } else if step.heard.Garbled? {
      SafetyNetIsClean(s, step.p);
    } else if step.Confirm? {
      LearningIsClean(s, step.p, if step.heard.Ack? then step.heard.status else OrderStatus.FAILED);
    } else if step.heard.Ack? {
      LearningIsClean(s, step.p, step.heard.status);
    } else {
      assert CleanWrite(s.sessions[step.p]);
      SessionStaysClean(s, At(s, step.p, Doubtful), step.p);
    }
  }

  lemma LoadIsClean(s: Sys, p: Pid)
    requires Orderly(s) && Clean(s) && Enabled(s, Load(p))
    ensures Clean(ApplyLoad(s, p))
  {
    var req, t := s.sessions[p].req, ApplyLoad(s, p);
    if req.Open? || Finds(s, req) {
      LoadShape(s, p, t);
      SessionFacts(s, p);
    } else {
      LandShape(s, p, Ending(NoWrite, BotReceipt(None, Declined)), t);
    }
    SessionStaysClean(s, t, p);
  }

  lemma ClaimingIsClean(s: Sys, step: Protocol.Step)
    requires Orderly(s) && Clean(s) && Enabled(s, step) && (step.Reserve? || step.ReserveInner?)
    ensures Clean(Apply(s, step))
  {
    assert CleanWrite(s.sessions[step.p]);
    if step.ReserveInner? {
      ReserveInnerShape(s, step.p);
    }
    SessionStaysClean(s, Apply(s, step), step.p);
  }

  lemma CommitIsClean(s: Sys, p: Pid)
    requires Clean(s) && Enabled(s, Commit(p))
    ensures Clean(ApplyCommit(s, p))
  {
    var t := ApplyCommit(s, p);
    assert t.sessions == s.sessions - {p};
    forall b | b in t.hist ensures CleanHistory(t.hist[b]) {
      assert CleanWrite(s.sessions[p]);
      if b in s.hist {
        assert CleanHistory(s.hist[b]);
      }
    }
  }

  lemma StepStaysClean(s: Sys, step: Protocol.Step)
    requires Orderly(s) && Clean(s) && WellFormed(step)
    ensures Clean(Next(s, step))
  {
    if Enabled(s, step) {
      match step
      case Begin(p, req) => SessionStaysClean(s, Apply(s, step), p);
      case Reserve(p) => ClaimingIsClean(s, step);
      case Load(p) => LoadIsClean(s, p);
      case Decline(p, garbled) => LiveEndIsClean(s, p, Outcome.Rejected, None);
      case ReserveInner(p) => ClaimingIsClean(s, step);
      case Simulate(p, market) => SessionStaysClean(s, ApplySimulate(s, p, market), p);
      case Gate(p, verdict) => GateIsClean(s, p, verdict);
      case Accept(call, fate) =>
      case Evolve(cid, fate) =>
      case Reply(p, heard) => HearingIsClean(s, step);
      case Confirm(p, heard) => HearingIsClean(s, step);
      case Reconcile(p, heard) => HearingIsClean(s, step);
      case Commit(p) => CommitIsClean(s, p);
      case Crash(p) =>
    }
  }

  lemma {:induction false} WellFormedRunsStayClean(steps: seq<Protocol.Step>)
    requires forall i :: 0 <= i < |steps| ==> WellFormed(steps[i])
    ensures Clean(Reached(steps))
  {
    if steps != [] {
      var front := steps[..|steps| - 1];
      WellFormedRunsStayClean(front);
      RunsAreOrderly(front);
      StepStaysClean(Reached(front), steps[|steps| - 1]);
    }
  }

  /** The in-progress states never reach the database: a session keeps its whole
      transition in one transaction and settles it before committing. */
  lemma InProgressIsNeverCommitted(steps: seq<Protocol.Step>, b: nat)
    requires forall i :: 0 <= i < |steps| ==> WellFormed(steps[i])
    requires b in Reached(steps).desks
    ensures Reached(steps).desks[b].bot.status !in {PAUSING, RESUMING}
  {
    var s := Reached(steps);
    WellFormedRunsStayClean(steps);
    EveryBotIsSequential(steps, b);
    var h := s.hist[b];
    assert CleanHistory(h);
    StuckExactlyAfterMalformedReply(h.first, h.events);
  }
}
