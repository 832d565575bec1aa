/** Every call at the exchange: where it came from, and when its id can be used again. Crashes included. */
module ProtocolCalls {
  import opened Common
  import opened Idempotency
  import opened BotMachine
  import opened Requests
  import opened Protocol
  import SimulationLedger
  import opened ProtocolSafety

  type Fates = map<KeyId, Fate>

  // ---- The exchange's book, crashes included ---------------------------------------------------

  ghost predicate EntryOk(c: Call, calls: seq<Call>, fate: Fates) {
    && c.index < |calls| && calls[c.index] == c
    && c.quantity > 0.0
    && c.cid in fate && Plausible(c, fate[c.cid])
  }

  ghost predicate HasEntry(book: seq<Call>, cid: KeyId) {
    exists i :: 0 <= i < |book| && book[i].cid == cid
  }

  /** Accepted orders are calls that were made, no two under one client order id. */
  ghost predicate BookOk(calls: seq<Call>, book: seq<Call>, fate: Fates) {
    && (forall i :: 0 <= i < |calls| ==> calls[i].index == i && calls[i].quantity > 0.0)
    && (forall i :: 0 <= i < |book| ==> EntryOk(book[i], calls, fate))
    && (forall i, j :: 0 <= i < j < |book| ==> book[i].cid != book[j].cid)
    && (forall cid :: cid in fate ==> HasEntry(book, cid))
  }

  lemma AcceptKeepsBook(calls: seq<Call>, book: seq<Call>, fate: Fates, call: nat, f: Fate)
    requires BookOk(calls, book, fate)
    requires call < |calls| && calls[call].cid !in fate && Plausible(calls[call], f)
    ensures BookOk(calls, book + [calls[call]], fate[calls[call].cid := f])
  {
    var c := calls[call];
    var book', fate' := book + [c], fate[c.cid := f];
    forall i | 0 <= i < |book| ensures book[i].cid != c.cid {
      assert EntryOk(book[i], calls, fate);
    }
    forall i | 0 <= i < |book'| ensures EntryOk(book'[i], calls, fate') {
      if i < |book| {
        assert EntryOk(book[i], calls, fate);
      }
    }
    forall cid | cid in fate' ensures HasEntry(book', cid) {
      if cid == c.cid {
        assert book'[|book|].cid == cid;
      } else {
        var i :| 0 <= i < |book| && book[i].cid == cid;
        assert book'[i].cid == cid;
      }
    }
  }

  lemma EvolveKeepsBook(calls: seq<Call>, book: seq<Call>, fate: Fates, cid: KeyId, f: Fate, at: nat)
    requires BookOk(calls, book, fate) && at < |book| && book[at].cid == cid && Plausible(book[at], f)
    ensures BookOk(calls, book, fate[cid := f])
  {
    forall i | 0 <= i < |book| ensures EntryOk(book[i], calls, fate[cid := f]) {
      assert EntryOk(book[i], calls, fate);
      assert EntryOk(book[at], calls, fate);
    }
  }

  lemma CallKeepsBook(calls: seq<Call>, book: seq<Call>, fate: Fates, c: Call)
    requires BookOk(calls, book, fate) && c.index == |calls| && c.quantity > 0.0
    ensures BookOk(calls + [c], book, fate)
  {
    forall i | 0 <= i < |book| ensures EntryOk(book[i], calls + [c], fate) {
      assert EntryOk(book[i], calls, fate);
    }
  }

  lemma OtherStepsLeaveExchange(s: Sys, step: Step)
    requires Enabled(s, step) && !step.Accept? && !step.Evolve? && !step.Gate?
    ensures var t := Apply(s, step); t.calls == s.calls && t.book == s.book && t.fate == s.fate
  {
  }

  lemma GateKeepsBook(s: Sys, p: Pid, verdict: GateVerdict)
    requires BookOk(s.calls, s.book, s.fate) && Enabled(s, Gate(p, verdict))
    ensures var t := ApplyGate(s, p, verdict); BookOk(t.calls, t.book, t.fate)
  {
    if verdict.Pass? {
      CallKeepsBook(s.calls, s.book, s.fate, CallOf(s.sessions[p], |s.calls|));
    }
  }

  lemma StepKeepsBook(s: Sys, step: Step)
    requires BookOk(s.calls, s.book, s.fate)
    ensures var t := Next(s, step); BookOk(t.calls, t.book, t.fate)
  {
    if Enabled(s, step) {
      match step
      case Accept(call, f) => AcceptKeepsBook(s.calls, s.book, s.fate, call, f);
      case Evolve(cid, f) =>
        var at :| 0 <= at < |s.book| && s.book[at].cid == cid && Plausible(s.book[at], f);
        EvolveKeepsBook(s.calls, s.book, s.fate, cid, f, at);
      case Gate(p, verdict) => GateKeepsBook(s, p, verdict);
      case _ => OtherStepsLeaveExchange(s, step);
    }
  }

  lemma {:induction false} RunsKeepBook(steps: seq<Step>)
    ensures var s := Reached(steps); BookOk(s.calls, s.book, s.fate)
  {
    if steps != [] {
      RunsKeepBook(steps[..|steps| - 1]);
      StepKeepsBook(Reached(steps[..|steps| - 1]), steps[|steps| - 1]);
    }
  }

  // ---- Projections to one bot -------------------------------------------------------------------

  predicate IsFor(c: Call, b: nat) { IsIdOf(c.cid, b) }

  function Of(cs: seq<Call>, b: nat): seq<Call> {
    if cs == [] then []
    else Of(cs[..|cs| - 1], b) + if IsFor(cs[|cs| - 1], b) then [cs[|cs| - 1]] else []
  }

  lemma OfSnoc(cs: seq<Call>, c: Call, b: nat)
    ensures Of(cs + [c], b) == if IsFor(c, b) then Of(cs, b) + [c] else Of(cs, b)
  {
    assert (cs + [c])[..|cs|] == cs;
    if !IsFor(c, b) {
      assert Of(cs, b) + [] == Of(cs, b);
    }
  }

  lemma {:induction false} OfMembers(cs: seq<Call>, b: nat)
    ensures forall c :: c in Of(cs, b) <==> c in cs && IsFor(c, b)
  {
    if cs != [] {
      OfMembers(cs[..|cs| - 1], b);
      assert cs == cs[..|cs| - 1] + [cs[|cs| - 1]];
    }
  }

  ghost predicate DistinctIds(cs: seq<Call>) {
    forall i, j :: 0 <= i < j < |cs| ==> cs[i].cid != cs[j].cid
  }

  // ---- One step, seen from the sessions ---------------------------------------------------------

  /** The session a step belongs to, if any. */
  function Actor(step: Step): Option<Pid> {
    match step
    case Accept(_, _) => None
    case Evolve(_, _) => None
    case _ => Some(step.p)
  }

  lemma OthersStay(s: Sys, step: Step, q: Pid)
    requires Enabled(s, step) && Actor(step) != Some(q)
    ensures q in Apply(s, step).sessions <==> q in s.sessions
    ensures q in s.sessions ==> Apply(s, step).sessions[q] == s.sessions[q]
  {
    match step
    case Load(_) => LoadMovesOne(s, step.p);
    case Gate(_, _) => GateMovesOne(s, step.p, step.verdict);
    case Reply(_, _) => HearingMovesOne(s, step);
    case Confirm(_, _) => HearingMovesOne(s, step);
    case Reconcile(_, _) => HearingMovesOne(s, step);
    case _ =>
  }

  lemma LoadMovesOne(s: Sys, p: Pid)
    requires Enabled(s, Load(p))
    ensures var t := ApplyLoad(s, p); p in t.sessions && t.sessions == s.sessions[p := t.sessions[p]]
    ensures ApplyLoad(s, p).sessions[p].req == s.sessions[p].req
    ensures ApplyLoad(s, p).sessions[p].call == s.sessions[p].call
  {
  }

  lemma GateMovesOne(s: Sys, p: Pid, verdict: GateVerdict)
    requires Enabled(s, Gate(p, verdict))
    ensures var n, t := s.sessions[p], ApplyGate(s, p, verdict);
            && p in t.sessions && t.sessions == s.sessions[p := t.sessions[p]]
            && t.sessions[p].req == n.req && t.sessions[p].row == n.row
            && t.sessions[p].call == if verdict.Pass? then Some(|s.calls|) else n.call
  {
  }

  lemma HearingMovesOne(s: Sys, step: Step)
    requires Enabled(s, step) && (step.Reply? || step.Confirm? || step.Reconcile?)
    ensures var p := step.p; var n, t := s.sessions[p], Apply(s, step);
            && p in t.sessions && t.sessions == s.sessions[p := t.sessions[p]]
            && t.sessions[p].req == n.req && t.sessions[p].row == n.row && t.sessions[p].call == n.call
  {
  }

  /** What a session has asked for, read and sent stays with it. */
  ghost predicate Continues(n: Session, m: Session, calls: nat, passes: bool) {
    && m.req == n.req && (n.row.Some? ==> m.row == n.row)
    && m.call == if passes then Some(calls) else n.call
  }

  predicate Passes(step: Step) { step.Gate? && step.verdict.Pass? }

  lemma ActorContinues(s: Sys, step: Step)
    requires Orderly(s) && Enabled(s, step) && Actor(step).Some? && !step.Begin? && !step.Commit? && !step.Crash?
    ensures step.p in s.sessions && step.p in Apply(s, step).sessions
    ensures Continues(s.sessions[step.p], Apply(s, step).sessions[step.p], |s.calls|, Passes(step))
  {
    match step
    case Load(_) => SessionFacts(s, step.p); LoadMovesOne(s, step.p);
    case Gate(_, _) => GateMovesOne(s, step.p, step.verdict);
    case Reply(_, _) => HearingMovesOne(s, step);
    case Confirm(_, _) => HearingMovesOne(s, step);
    case Reconcile(_, _) => HearingMovesOne(s, step);
    case Reserve(_) => ClaimingMovesOne(s, step);
    case ReserveInner(_) => ClaimingMovesOne(s, step);
    case _ =>
  }

  lemma ClaimingMovesOne(s: Sys, step: Step)
    requires Enabled(s, step) && (step.Reserve? || step.ReserveInner?)
    ensures var p := step.p; var n, t := s.sessions[p], Apply(s, step);
            && p in t.sessions && t.sessions == s.sessions[p := t.sessions[p]]
            && t.sessions[p].req == n.req && t.sessions[p].row == n.row && t.sessions[p].call == n.call
  {
  }

  lemma EndersLeave(s: Sys, step: Step)
    requires Enabled(s, step) && (step.Commit? || step.Crash?)
    ensures step.p in s.sessions && step.p !in Apply(s, step).sessions
  {
  }

  lemma CallsGrow(s: Sys, step: Step)
    requires Enabled(s, step)
    ensures Apply(s, step).calls == s.calls + if Passes(step) then [CallOf(s.sessions[step.p], |s.calls|)] else []
  {
    if step.Gate? && !Passes(step) {
      assert Uncommitted(s, ApplyGate(s, step.p, step.verdict));
    }
    if !step.Gate? && !step.Accept? && !step.Evolve? {
      OtherStepsLeaveExchange(s, step);
    }
  }

  // ---- Sessions remember their call ----------------------------------------------------------------

  ghost predicate Recalls(n: Session, calls: seq<Call>) {
    n.call.Some? ==> IsCaller(n) && n.call.value < |calls| && calls[n.call.value] == CallOf(n, n.call.value)
  }

  ghost predicate AllRecall(s: Sys) { forall p :: p in s.sessions ==> Recalls(s.sessions[p], s.calls) }

  lemma StepKeepsRecall(s: Sys, step: Step)
    requires Orderly(s) && AllRecall(s)
    ensures AllRecall(Next(s, step))
  {
    if Enabled(s, step) {
      CallsGrow(s, step);
      forall q | q in Apply(s, step).sessions ensures Recalls(Apply(s, step).sessions[q], Apply(s, step).calls) {
        SessionRecalls(s, step, q, Apply(s, step));
      }
    }
  }

  lemma ContinuesRecalls(n: Session, m: Session, calls: seq<Call>, passes: bool)
    requires Continues(n, m, |calls|, passes) && Recalls(n, calls) && (n.call.Some? || passes ==> IsCaller(n))
    ensures Recalls(m, calls + if passes then [CallOf(n, |calls|)] else [])
  {
  }

  lemma SessionRecalls(s: Sys, step: Step, q: Pid, t: Sys)
    requires Orderly(s) && AllRecall(s) && Enabled(s, step) && t == Apply(s, step) && q in t.sessions
    requires t.calls == s.calls + if Passes(step) then [CallOf(s.sessions[step.p], |s.calls|)] else []
    ensures Recalls(t.sessions[q], t.calls)
  {
    if Actor(step) != Some(q) {
      OthersStay(s, step, q);
      assert Recalls(s.sessions[q], s.calls);
    } else if step.Commit? || step.Crash? {
      EndersLeave(s, step);
    } else if !step.Begin? {
      ActorContinues(s, step);
      assert Recalls(s.sessions[q], s.calls);
      ContinuesRecalls(s.sessions[q], t.sessions[q], s.calls, Passes(step));
    }
  }

  /** What holds of every reachable state. */
  ghost predicate Recorded(s: Sys) { Orderly(s) && BookOk(s.calls, s.book, s.fate) && AllRecall(s) }

  lemma {:induction false} RunsAreRecorded(steps: seq<Step>)
    ensures Recorded(Reached(steps))
  {
    RunsAreOrderly(steps);
    RunsKeepBook(steps);
    if steps != [] {
      RunsAreRecorded(steps[..|steps| - 1]);
      StepKeepsRecall(Reached(steps[..|steps| - 1]), steps[|steps| - 1]);
    }
  }

  // ---- One id -----------------------------------------------------------------------------------------

  ghost predicate CallsOnce(calls: seq<Call>, id: KeyId) {
    forall i, j :: 0 <= i < j < |calls| ==> !(calls[i].cid == id && calls[j].cid == id)
  }

  ghost predicate Uses(calls: seq<Call>, id: KeyId) {
    exists i :: 0 <= i < |calls| && calls[i].cid == id
  }

  /** This session has called under the id. */
  ghost predicate Spender(n: Session, id: KeyId) { n.call.Some? && CidOf(n.req) == id }

  /** The key is committed, or claimed by a session that has called under it. */
  ghost predicate Spent(id: KeyId, keys: map<KeyId, KeyRow>, owners: Owners, sessions: Sessions) {
    id in keys || (id in owners && owners[id] in sessions && Spender(sessions[owners[id]], id))
  }

  /** At most one call was made under the id, and then its key is spent. */
  ghost predicate Once(s: Sys, id: KeyId) {
    CallsOnce(s.calls, id) && (Uses(s.calls, id) ==> Spent(id, s.keys, s.owners, s.sessions))
  }

  lemma CommitKeepsSpent(s: Sys, p: Pid, id: KeyId)
    requires s.owners.Keys == s.drafts.Keys && Spent(id, s.keys, s.owners, s.sessions)
    ensures Spent(id, s.keys + Kept(s, p), OthersKeys(s.owners, p), s.sessions - {p})
  {
    if OwnedBy(s.owners, id, p) {
      assert id in s.owners.Keys && Owns(s, p, id);
    }
  }

  lemma CrashKeepsSpent(id: KeyId, keys: map<KeyId, KeyRow>, owners: Owners, sessions: Sessions, p: Pid)
    requires Spent(id, keys, owners, sessions) && (p in sessions ==> !Spender(sessions[p], id))
    ensures Spent(id, keys, OthersKeys(owners, p), sessions - {p})
  {
  }

  lemma OwnersStay(s: Sys, step: Step)
    requires Enabled(s, step) && !step.Commit? && !step.Crash?
    ensures Apply(s, step).keys == s.keys
    ensures forall id :: id in s.owners ==> id in Apply(s, step).owners && Apply(s, step).owners[id] == s.owners[id]
  {
    match step
    case Gate(_, _) => GateKeepsOwners(s, step.p, step.verdict);
    case _ =>
  }

  lemma GateKeepsOwners(s: Sys, p: Pid, verdict: GateVerdict)
    requires Enabled(s, Gate(p, verdict))
    ensures ApplyGate(s, p, verdict).keys == s.keys && ApplyGate(s, p, verdict).owners == s.owners
  {
  }

  lemma StepKeepsSpent(s: Sys, step: Step, id: KeyId)
    requires Orderly(s) && Enabled(s, step) && !step.Commit? && !step.Crash?
    requires Spent(id, s.keys, s.owners, s.sessions)
    ensures Spent(id, Apply(s, step).keys, Apply(s, step).owners, Apply(s, step).sessions)
  {
    OwnersStay(s, step);
    if id !in s.keys {
      var q := s.owners[id];
      if Actor(step) != Some(q) {
        OthersStay(s, step, q);
      } else {
        SessionFacts(s, q);
        ActorContinues(s, step);
      }
    }
  }

  /** A session that is about to call has claimed the id for itself and has not used it. */
  lemma CallerIsFirst(s: Sys, p: Pid, id: KeyId)
    requires Orderly(s) && Enabled(s, Gate(p, Pass)) && id == CidOf(s.sessions[p].req)
    ensures OwnedBy(s.owners, id, p) && id !in s.keys && s.sessions[p].call.None?
    ensures !Spent(id, s.keys, s.owners, s.sessions)
  {
    SessionFacts(s, p);
    assert DraftOk(id, s.owners, s.keys, s.sessions);
  }

  lemma PassSpends(s: Sys, p: Pid, t: Sys)
    requires Orderly(s) && Enabled(s, Gate(p, Pass)) && t == ApplyGate(s, p, Pass)
    ensures Spent(CidOf(s.sessions[p].req), t.keys, t.owners, t.sessions)
  {
    CallerIsFirst(s, p, CidOf(s.sessions[p].req));
  }

  lemma OneMoreCall(calls: seq<Call>, c: Call, id: KeyId)
    ensures Uses(calls + [c], id) <==> Uses(calls, id) || c.cid == id
    ensures CallsOnce(calls, id) && (c.cid == id ==> !Uses(calls, id)) ==> CallsOnce(calls + [c], id)
  {
    if Uses(calls, id) {
      var i :| 0 <= i < |calls| && calls[i].cid == id;
      assert (calls + [c])[i].cid == id;
    }
    if c.cid == id {
      assert (calls + [c])[|calls|].cid == id;
    }
  }

  lemma StepKeepsOnce(s: Sys, step: Step, id: KeyId)
    requires Orderly(s) && Once(s, id) && !LosesCall(s, step, id)
    ensures Once(Next(s, step), id)
  {
    if Enabled(s, step) {
      CallsGrow(s, step);
      if Passes(step) {
        PassKeepsOnce(s, step.p, id, Apply(s, step));
      } else {
        assert s.calls + [] == s.calls;
        if Uses(s.calls, id) {
          if step.Commit? {
            CommitKeepsSpent(s, step.p, id);
          } else if step.Crash? {
            CrashKeepsSpent(id, s.keys, s.owners, s.sessions, step.p);
          } else {
            StepKeepsSpent(s, step, id);
          }
        }
      }
    }
  }

  lemma PassKeepsOnce(s: Sys, p: Pid, id: KeyId, t: Sys)
    requires Orderly(s) && Once(s, id) && Enabled(s, Gate(p, Pass)) && t == ApplyGate(s, p, Pass)
    ensures Once(t, id)
  {
    CallsGrow(s, Gate(p, Pass));
    OneMoreCall(s.calls, CallOf(s.sessions[p], |s.calls|), id);
    if id == CidOf(s.sessions[p].req) {
      CallerIsFirst(s, p, id);
      PassSpends(s, p, t);
    } else if Uses(s.calls, id) {
      StepKeepsSpent(s, Gate(p, Pass), id);
    }
  }

  lemma LosesCallEarlier(steps: seq<Step>, n: nat, i: nat, id: KeyId)
    requires i < n <= |steps|
    ensures LosesCallAt(steps[..n], i, id) == LosesCallAt(steps, i, id)
  {
    assert steps[..n][..i] == steps[..i];
  }

  lemma KeepsCallsFront(steps: seq<Step>, id: KeyId)
    requires steps != []
    ensures var front := steps[..|steps| - 1];
            KeepsCalls(steps, id) <==> KeepsCalls(front, id) && !LosesCall(Reached(front), steps[|steps| - 1], id)
  {
    var n := |steps| - 1;
    var front := steps[..n];
    assert LosesCallAt(steps, n, id) == LosesCall(Reached(front), steps[n], id);
    forall i | 0 <= i < n ensures LosesCallAt(front, i, id) == LosesCallAt(steps, i, id) {
      LosesCallEarlier(steps, n, i, id);
    }
  }

  /** As long as no rollback comes after a call under an id, `create_order` is called at most
      once under it, and then its key is spent. */
  lemma {:induction false} RunsCallOnce(steps: seq<Step>, id: KeyId)
    requires KeepsCalls(steps, id)
    ensures Once(Reached(steps), id)
  {
    if steps != [] {
      var front := steps[..|steps| - 1];
      KeepsCallsFront(steps, id);
      RunsCallOnce(front, id);
      RunsAreOrderly(front);
      StepKeepsOnce(Reached(front), steps[|steps| - 1], id);
    }
  }

  // ---- Where calls come from --------------------------------------------------------------------------

  /** Step j opened the session p that is open at the end of the run, with its request. */
  ghost predicate OpenedAt(steps: seq<Step>, p: Pid, req: Request, j: nat) {
    j < |steps| && steps[j] == Begin(p, req) && Enabled(Reached(steps[..j]), steps[j])
  }

  /** A session opened at step j made this call at step k: it asked for what its request says,
      or what the bot row it holds says, and the key behind the call was claimed and its own. */
  ghost predicate CalledAt(steps: seq<Step>, c: Call, j: nat, k: nat) {
    && j < k < |steps| && Passes(steps[k]) && Enabled(Reached(steps[..k]), steps[k])
    && var s, p := Reached(steps[..k]), steps[k].p;
       var n := s.sessions[p];
       && OpenedAt(steps, p, n.req, j) && c == CallOf(n, |s.calls|)
       && OwnedBy(s.owners, c.cid, p) && c.cid !in s.keys
       && (n.req.Transition? ==>
             LockedBy(s.locks, n.req.bot, p) && n.req.bot in s.desks && n.row == Some(s.desks[n.req.bot]))
  }

  lemma {:induction false} SessionsWereOpened(steps: seq<Step>, p: Pid)
    requires p in Reached(steps).sessions
    ensures exists j :: OpenedAt(steps, p, Reached(steps).sessions[p].req, j)
  {
    if steps != [] {
      var front, step := steps[..|steps| - 1], steps[|steps| - 1];
      var s := Reached(front);
      RunsAreOrderly(front);
      if Enabled(s, step) && step.Begin? && step.p == p {
        assert OpenedAt(steps, p, step.req, |front|);
      } else {
        if Enabled(s, step) {
          if Actor(step) != Some(p) {
            OthersStay(s, step, p);
          } else if step.Commit? || step.Crash? {
            EndersLeave(s, step);
          } else {
            ActorContinues(s, step);
          }
        }
        SessionsWereOpened(front, p);
        var j :| OpenedAt(front, p, s.sessions[p].req, j);
        OpenedEarlier(steps, p, s.sessions[p].req, j);
      }
    }
  }

  lemma OpenedEarlier(steps: seq<Step>, p: Pid, req: Request, j: nat)
    requires steps != [] && OpenedAt(steps[..|steps| - 1], p, req, j)
    ensures OpenedAt(steps, p, req, j)
  {
    assert steps[..|steps| - 1][..j] == steps[..j];
  }

  lemma CalledEarlier(steps: seq<Step>, c: Call, j: nat, k: nat)
    requires steps != [] && CalledAt(steps[..|steps| - 1], c, j, k)
    ensures CalledAt(steps, c, j, k)
  {
    var front := steps[..|steps| - 1];
    assert front[..k] == steps[..k] && front[k] == steps[k];
    OpenedEarlier(steps, steps[k].p, Reached(steps[..k]).sessions[steps[k].p].req, j);
  }

  lemma OldCallsStay(s: Sys, step: Step, i: nat)
    requires i < |Next(s, step).calls|
    ensures if i < |s.calls| then Next(s, step).calls[i] == s.calls[i]
            else Enabled(s, step) && Passes(step) && Next(s, step).calls[i] == CallOf(s.sessions[step.p], |s.calls|)
  {
    if Enabled(s, step) {
      CallsGrow(s, step);
    }
  }

  /** Crashes included, every call was asked for. */
  lemma {:induction false} CallsWereAsked(steps: seq<Step>, i: nat)
    requires i < |Reached(steps).calls|
    ensures exists j, k :: CalledAt(steps, Reached(steps).calls[i], j, k)
  {
    if steps != [] {
      var front, step := steps[..|steps| - 1], steps[|steps| - 1];
      OldCallsStay(Reached(front), step, i);
      if i < |Reached(front).calls| {
        CallsWereAsked(front, i);
        var j, k :| CalledAt(front, Reached(front).calls[i], j, k);
        CalledEarlier(steps, Reached(front).calls[i], j, k);
      } else {
        NewCallWasAsked(steps);
      }
    }
  }

  lemma NewCallWasAsked(steps: seq<Step>)
    requires steps != []
    requires var s, step := Reached(steps[..|steps| - 1]), steps[|steps| - 1]; Enabled(s, step) && Passes(step)
    ensures var s, step := Reached(steps[..|steps| - 1]), steps[|steps| - 1];
            exists j, k :: CalledAt(steps, CallOf(s.sessions[step.p], |s.calls|), j, k)
  {
    var front, step := steps[..|steps| - 1], steps[|steps| - 1];
    var s, p := Reached(front), step.p;
    RunsAreOrderly(front);
    CallerIsFirst(s, p, CidOf(s.sessions[p].req));
    SessionFacts(s, p);
    SessionsWereOpened(front, p);
    var j :| OpenedAt(front, p, s.sessions[p].req, j);
    OpenedEarlier(steps, p, s.sessions[p].req, j);
    assert CalledAt(steps, CallOf(s.sessions[p], |s.calls|), j, |front|);
  }
}
