/** What a rollback after a call can do, and which rollbacks can do it. */
module ProtocolCrashes {
  import opened Common
  import opened Idempotency
  import opened Alternation
  import opened BotMachine
  import opened Requests
  import opened Protocol
  import opened ProtocolSafety
  import opened ProtocolCalls
  import opened ProtocolTrading
  import opened ProtocolTheorems
  import opened ProtocolServices

  // ---- The same call again --------------------------------------------------------------------------

  lemma {:induction false} RunConcat(s: Sys, a: seq<Step>, b: seq<Step>)
    ensures Protocol.Run(s, a + b) == Protocol.Run(Protocol.Run(s, a), b)
  {
    if b == [] {
      assert a + b == a;
    } else {
      assert (a + b)[..|a + b| - 1] == a + b[..|b| - 1];
      RunConcat(s, a, b[..|b| - 1]);
    }
  }

  lemma RunOn(steps: seq<Step>, step: Step)
    ensures Reached(steps + [step]) == Next(Reached(steps), step)
  {
    assert (steps + [step])[..|steps|] == steps;
  }

  /** A session that has called has asked for something, and its key is its own. */
  lemma CallerCanRepeat(s: Sys, p: Pid)
    requires Recorded(s) && p in s.sessions && s.sessions[p].call.Some?
    ensures var n := s.sessions[p];
            && IsCaller(n) && WellTyped(n.req) && !Misspells(n.req) && QuantityAsked(n) > 0.0
            && OwnedBy(s.owners, OuterId(n.req), p) && OuterId(n.req) !in s.keys
  {
    var n := s.sessions[p];
    SessionFacts(s, p);
    assert Recalls(n, s.calls);
    assert DraftOk(CidOf(n.req), s.owners, s.keys, s.sessions);
    assert DraftOk(OuterId(n.req), s.owners, s.keys, s.sessions);
  }

  /** Three steps of a new session from any state in which the key is free. */
  lemma OrderCallsAgain(t: Sys, p: Pid, req: Request) returns (more: seq<Step>)
    requires req.PlaceOrder? && WellTyped(req) && !Misspells(req) && req.quantity > 0.0
    requires p !in t.sessions && OuterId(req) !in t.keys && OuterId(req) !in t.owners
    ensures CrashFree(more)
    ensures Protocol.Run(t, more).calls == t.calls + [CallOf(SessionFor(req), |t.calls|)]
  {
    var begun := Next(t, Begin(p, req));
    var claimed := Next(begun, Reserve(p));
    more := [Begin(p, req)] + [Reserve(p), Gate(p, Pass)];
    RunAfter(t, Begin(p, req), [Reserve(p), Gate(p, Pass)]);
    RunOfTwo(begun, Reserve(p), Gate(p, Pass));
    assert In(begun, p, Starting) && In(claimed, p, Claimed);
  }

  /** A transition whose row and key are free calls after five steps. */
  lemma TransitionCallsAgain(t: Sys, p: Pid, req: Request) returns (more: seq<Step>)
    requires Ready(t, p, req) && t.desks[req.bot].bot.mode == LIVE && QuantityOf(req.op, t.desks[req.bot].bot) > 0.0
    ensures CrashFree(more) && Protocol.Run(t, more).calls == t.calls + [TheCall(t, req)]
  {
    var begun := Next(t, Begin(p, req));
    var claimed := Next(begun, Reserve(p));
    var held := Next(claimed, Load(p));
    var keyed := Next(held, ReserveInner(p));
    ClaimsOuter(t, p, req, claimed);
    LocksRow(t, p, req, claimed, held);
    ReadyHasRoom(t, p, req);
    ClaimsInner(t, p, req, held, keyed);
    GatePasses(t, p, req, keyed, Next(keyed, Gate(p, Pass)), DerivedRow(t, req, None));
    RunOfTwo(held, ReserveInner(p), Gate(p, Pass));
    more := FromTheStart(t, p, req, begun, claimed, held, [ReserveInner(p), Gate(p, Pass)]);
  }

  /** A rollback leaves a transition that had called as if it had never begun. */
  lemma RolledBackIsReady(s: Sys, p: Pid, t: Sys)
    requires Recorded(s) && p in s.sessions && s.sessions[p].call.Some? && s.sessions[p].req.Transition?
    requires t == Leave(s, p)
    ensures Ready(t, p, s.sessions[p].req)
    ensures s.sessions[p].row == Some(t.desks[s.sessions[p].req.bot]) && s.sessions[p].row.value.bot.mode == LIVE
  {
    var req := s.sessions[p].req;
    LeaveKeeps(s, p);
    SessionFacts(s, p);
    CallerCanRepeat(s, p);
    DeskLifecycle(s, req.bot);
  }

  /** After the rollback of any session that has called, the same request can call again: the same
      id, the same side, the same quantity. */
  lemma LostCallsCanRepeat(s: Sys, p: Pid, t: Sys) returns (more: seq<Step>)
    requires Recorded(s) && p in s.sessions && s.sessions[p].call.Some? && t == Next(s, Crash(p))
    ensures CrashFree(more) && IsCaller(s.sessions[p])
    ensures Protocol.Run(t, more).calls == s.calls + [CallOf(s.sessions[p], |s.calls|)]
  {
    var n := s.sessions[p];
    CallerCanRepeat(s, p);
    if n.req.Transition? {
      RolledBackIsReady(s, p, t);
      more := TransitionCallsAgain(t, p, n.req);
      assert TheCall(t, n.req) == CallOf(n, |s.calls|);
    } else {
      more := OrderCallsAgain(t, p, n.req);
      assert CallOf(SessionFor(n.req), |s.calls|) == CallOf(n, |s.calls|);
    }
  }

  // ---- Exactly these rollbacks ------------------------------------------------------------------------

  lemma CrashFreeKeepsCalls(steps: seq<Step>, more: seq<Step>, id: KeyId)
    requires KeepsCalls(steps, id) && CrashFree(more)
    ensures KeepsCalls(steps + more, id)
  {
    var all := steps + more;
    assert all[..|steps|] == steps;
    forall i | 0 <= i < |all| ensures !LosesCallAt(all, i, id) {
      if i < |steps| {
        LosesCallEarlier(all, |steps|, i, id);
      } else {
        assert all[i] == more[i - |steps|];
      }
    }
  }

  /** The call of the lost session, and the one it makes again. */
  lemma RepeatedCallIsSecond(s: Sys, p: Pid, id: KeyId, calls: seq<Call>)
    requires AllRecall(s) && p in s.sessions && Spender(s.sessions[p], id) && IsCaller(s.sessions[p])
    requires calls == s.calls + [CallOf(s.sessions[p], |s.calls|)]
    ensures !CallsOnce(calls, id)
  {
    assert Recalls(s.sessions[p], s.calls);
    var i := s.sessions[p].call.value;
    assert calls[i].cid == id && calls[|s.calls|].cid == id;
  }

  /** Some way to go on after this rollback, without another one, calls twice under the id. */
  ghost predicate CanCallTwice(steps: seq<Step>, p: Pid, id: KeyId) {
    exists more :: CrashFree(more) && !CallsOnce(Reached(steps + [Crash(p)] + more).calls, id)
  }

  /** In any run without a lost call under an id, and for any open session: its rollback makes a second
      call under the id possible if and only if the session has called under the id. */
  lemma SecondCallPossibleExactlyAfterALostOne(steps: seq<Step>, p: Pid, id: KeyId)
    requires KeepsCalls(steps, id) && p in Reached(steps).sessions
    ensures CanCallTwice(steps, p, id) <==> LosesCall(Reached(steps), Crash(p), id)
  {
    var s := Reached(steps);
    var crashed := steps + [Crash(p)];
    RunsAreRecorded(steps);
    RunOn(steps, Crash(p));
    if LosesCall(s, Crash(p), id) {
      var more := LostCallsCanRepeat(s, p, Next(s, Crash(p)));
      RunConcat(START, crashed, more);
      RepeatedCallIsSecond(s, p, id, Reached(crashed + more).calls);
    } else {
      assert crashed[..|crashed| - 1] == steps;
      KeepsCallsFront(crashed, id);
      forall more | CrashFree(more) ensures CallsOnce(Reached(crashed + more).calls, id) {
        CrashFreeKeepsCalls(crashed, more, id);
        RunsCallOnce(crashed + more, id);
      }
    }
  }

  lemma CrashLeaves(s: Sys, p: Pid)
    requires p in s.sessions
    ensures Next(s, Crash(p)) == Leave(s, p)
  {
  }

  // ---- Agreement after a lost order -------------------------------------------------------------------

  lemma NetSnoc(cs: seq<Call>, c: Call, fate: Fates)
    ensures NetExecuted(cs + [c], fate)
         == NetExecuted(cs, fate) + if c.cid in fate then Signed(Leg(c.side, fate[c.cid].executed)) else 0.0
  {
    assert (cs + [c])[..|cs|] == cs;
  }

  lemma SettledNetIsHolding(P: seq<Call>, fate: Fates, q: real)
    requires AllSettled(P, fate) && Matches(Exposed(P, fate), q)
    requires forall i :: 0 <= i < |P| ==> P[i].cid in fate && Plausible(P[i], fate[P[i].cid])
    ensures NetExecuted(P, fate) == q
  {
    SettledNet(P, fate);
    UnbrokenMeansAlternating(FilledLegs(P, fate));
  }

  /** The last order sent has arrived exactly if the exchange knows its id. */
  lemma ArrivedIfKnown(calls: seq<Call>, book: seq<Call>, fate: Fates, b: nat, q: real, c: Call)
    requires BookOk(calls, book, fate) && DistinctFor(calls, b) && Busy(Of(calls, b), Of(book, b), fate, q)
    requires c == Of(calls, b)[|Of(calls, b)| - 1]
    ensures Of(book, b) == if c.cid in fate then Of(calls, b) else Of(calls, b)[..|Of(calls, b)| - 1]
  {
    OfMembers(calls, b);
    OfMembers(book, b);
    OfKeepsDistinct(calls, b);
    LastIsNew(Of(calls, b));
    if c.cid in fate {
      KnownFateMeansArrived(calls, book, fate, b, c);
    } else {
      UnknownIsNotBooked(calls, book, fate, c);
    }
  }

  /** What the exchange executed for a bot with an order under way: its holding, and what that order executed. */
  lemma BusyNet(calls: seq<Call>, book: seq<Call>, fate: Fates, b: nat, q: real, c: Call)
    requires BookOk(calls, book, fate) && DistinctFor(calls, b) && Busy(Of(calls, b), Of(book, b), fate, q)
    requires c == Of(calls, b)[|Of(calls, b)| - 1]
    ensures NetExecuted(Of(book, b), fate) == q + if c.cid in fate then Signed(Leg(c.side, fate[c.cid].executed))
            else 0.0
  {
    var C, B := Of(calls, b), Of(book, b);
    var P := C[..|C| - 1];
    assert C == P + [c];
    ArrivedIfKnown(calls, book, fate, b, q, c);
    BookedArePlausible(calls, book, fate, b, B);
    assert forall i :: 0 <= i < |P| ==> P[i] == B[i];
    SettledNetIsHolding(P, fate, q);
    NetSnoc(P, c, fate);
  }

  lemma InFlightIsBusy(s: Sys, b: nat, bot: Bot, n: Session)
    requires Tracks(s, b) && LastOf(s, b) == Some(bot) && HolderOf(s, b) == Some(n) && n.call.Some?
    ensures n.call.value < |s.calls| && Busy(Of(s.calls, b), Of(s.book, b), s.fate, bot.current)
    ensures Of(s.calls, b)[|Of(s.calls, b)| - 1] == s.calls[n.call.value]
  {
    assert RowView(Some(bot), Some(n)) == InFlight(bot.current, n.call.value);
  }

  /** While a transition waits for its order, that order is the bot's last call and all others are settled. */
  lemma CallerIsBusy(s: Sys, p: Pid, b: nat)
    requires Traded(s, b) && Moving(s, p) && s.sessions[p].call.Some? && s.sessions[p].req.bot == b
    ensures var q := s.sessions[p].row.value.bot.current; Busy(Of(s.calls, b), Of(s.book, b), s.fate, q)
    ensures Of(s.calls, b)[|Of(s.calls, b)| - 1] == CallOf(s.sessions[p], s.sessions[p].call.value)
  {
    MoverHoldsItsRow(s, p, b);
    HolderFacts(s, p, b);
    InFlightIsBusy(s, b, s.sessions[p].row.value.bot, s.sessions[p]);
    assert Recalls(s.sessions[p], s.calls);
  }

  /** The bot is left ACTIVE or PAUSED and unlocked, as if nothing had been sent; it still agrees
      with the exchange if and only if the order under this id executed nothing. */
  ghost predicate AgreesUnlessExecuted(t: Sys, b: nat, cid: KeyId) {
    && b in t.desks && b !in t.locks && t.desks[b].bot.mode == LIVE && t.desks[b].bot.status in {ACTIVE, PAUSED}
    && (t.desks[b].bot.current == NetExecuted(Of(t.book, b), t.fate)
        <==> (cid in t.fate ==> t.fate[cid].executed == 0.0))
  }

  lemma RollbackAgreesExactly(s: Sys, p: Pid, b: nat, t: Sys)
    requires Traded(s, b) && p in s.sessions && s.sessions[p].call.Some? && t == Leave(s, p)
    requires s.sessions[p].req.Transition? && s.sessions[p].req.bot == b
    ensures AgreesUnlessExecuted(t, b, CidOf(s.sessions[p].req))
  {
    var n := s.sessions[p];
    RolledBackIsReady(s, p, t);
    CallerIsBusy(s, p, b);
    BusyNet(s.calls, s.book, s.fate, b, n.row.value.bot.current, CallOf(n, n.call.value));
  }

  /** What a rollback after a call does to a live bot, in any run that had lost none of its calls before. */
  lemma LostOrderBreaksAgreementExactly(steps: seq<Step>, p: Pid, b: nat)
    requires KeepsCallsOf(steps, b) && p in Reached(steps).sessions
    requires var n := Reached(steps).sessions[p]; n.call.Some? && n.req.Transition? && n.req.bot == b
    ensures AgreesUnlessExecuted(Reached(steps + [Crash(p)]), b, CidOf(Reached(steps).sessions[p].req))
  {
    RunsTrade(steps, b);
    RunOn(steps, Crash(p));
    CrashLeaves(Reached(steps), p);
    RollbackAgreesExactly(Reached(steps), p, b, Leave(Reached(steps), p));
  }
}
