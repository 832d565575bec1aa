/** Operations on one order row that overlap: rows are read and rewritten without a lock. */
module OrderRaces {
  import opened Common
  import opened Reconciliation

  /** What a commit writes: the fields that differ from what the session loaded. */
  function WriteBack(stored: OrderRow, loaded: OrderRow, mine: OrderRow): OrderRow {
    OrderRow(
      if mine.status != loaded.status then mine.status else stored.status,
      if mine.exchangeId != loaded.exchangeId then mine.exchangeId else stored.exchangeId,
      if mine.executed != loaded.executed then mine.executed else stored.executed,
      if mine.average != loaded.average then mine.average else stored.average,
      if mine.terminalAt != loaded.terminalAt then mine.terminalAt else stored.terminalAt)
  }

  /** An operation that has read the row and not yet committed. */
  datatype Open = Open(loaded: OrderRow, touch: Touch)

  datatype Move = Starts(op: nat, touch: Touch) | Commits(op: nat) | RollsBack(op: nat)

  /** The committed row and the open operations on it. */
  datatype Race = Race(stored: OrderRow, open: map<nat, Open>)

  const NEW_RACE := Race(NEW_ROW, map[])

  function Written(stored: OrderRow, o: Open): OrderRow { WriteBack(stored, o.loaded, Touched(o.loaded, o.touch)) }

  function Moved(r: Race, m: Move): Race {
    match m
    case Starts(op, touch) => if op in r.open then r else r.(open := r.open[op := Open(r.stored, touch)])
    case Commits(op) => if op in r.open then Race(Written(r.stored, r.open[op]), r.open - {op}) else r
    case RollsBack(op) => r.(open := r.open - {op})
  }

  function Raced(r: Race, moves: seq<Move>): Race {
    if moves == [] then r else Moved(Raced(r, moves[..|moves| - 1]), moves[|moves| - 1])
  }

  // ---- What an operation brings, read off its reply ---------------------------------------------------

  function StatusIn(reply: ExchangeOrder): Option<OrderStatus>
    requires KnownStatus(reply)
  {
    if reply.status.Some? then MapBinanceStatus(reply.status.value) else None
  }

  /** The status an operation that reached its row assigns, if any. */
  function Brings(loaded: OrderRow, t: Touch): Option<OrderStatus> {
    if !Reaches(loaded, t) then None
    else
      match t
      case Refuse(_) => Some(OrderStatus.REJECTED)
      case GiveUp(_) => Some(OrderStatus.FAILED)
      case Acknowledge(reply, _) => if WellFormed(reply) then StatusIn(reply) else Some(OrderStatus.FAILED)
      case Cancel(Ok(reply), _) => if KnownStatus(reply) then StatusIn(reply) else None
      case BotRead(Ok(reply), _) => if KnownStatus(reply) then StatusIn(reply) else None
      case Read(Ok(reply), _) => if WellFormed(reply) then StatusIn(reply) else None
  }

  /** The operation carries a status that is neither the one it loaded nor the one stored by now. */
  predicate Overrides(stored: OrderRow, o: Open) {
    var status := Brings(o.loaded, o.touch);
    status.Some? && status.value != o.loaded.status && status.value != stored.status
  }

  lemma TouchedStatus(loaded: OrderRow, t: Touch)
    ensures Touched(loaded, t).status == (if Brings(loaded, t).Some? then Brings(loaded, t).value else loaded.status)
  {
  }

  /** A commit changes the stored status exactly when its reply overrides it. */
  lemma CommitChangesStatusExactly(stored: OrderRow, o: Open)
    ensures Written(stored, o).status != stored.status <==> Overrides(stored, o)
  {
    TouchedStatus(o.loaded, o.touch);
  }

  /** The time an operation stamps on its row, if any. */
  function Stamps(loaded: OrderRow, t: Touch): Option<int> {
    if !Reaches(loaded, t) then None
    else
      match t
      case Refuse(now) => Some(now)
      case GiveUp(now) => Some(now)
      case Acknowledge(reply, now) =>
        if WellFormed(reply) && !IsTerminal(Updated(loaded, reply).status) then None else Some(now)
      case Cancel(Ok(reply), now) => if WellFormed(reply) then Some(now) else None
      case BotRead(Ok(reply), now) =>
        if WellFormed(reply) && IsTerminal(Updated(loaded, reply).status) then Some(now) else None
      case Read(Ok(reply), now) =>
        if WellFormed(reply) && IsTerminal(Updated(loaded, reply).status) then Some(now) else None
  }

  /** The operation stamps a time that is neither the one it loaded nor the one stored by now. */
  predicate Restamps(stored: OrderRow, o: Open) {
    var time := Stamps(o.loaded, o.touch);
    time.Some? && time != o.loaded.terminalAt && time != stored.terminalAt
  }

  /** A commit moves the stored time exactly when it restamps it. */
  lemma CommitMovesTimeExactly(stored: OrderRow, o: Open)
    ensures Touched(o.loaded, o.touch).terminalAt
         == if Stamps(o.loaded, o.touch).Some? then Stamps(o.loaded, o.touch) else o.loaded.terminalAt
    ensures Written(stored, o).terminalAt != stored.terminalAt <==> Restamps(stored, o)
  {
  }

  // ---- Over any overlapping operations ------------------------------------------------------------------

  predicate OverridesNow(r: Race, m: Move) { m.Commits? && m.op in r.open && Overrides(r.stored, r.open[m.op]) }

  ghost predicate StatusKept(moves: seq<Move>, n: nat)
    requires n <= |moves|
  {
    forall m :: n <= m <= |moves| ==>
      Raced(NEW_RACE, moves[..m]).stored.status == Raced(NEW_RACE, moves[..n]).stored.status
  }

  ghost predicate NothingOverrides(moves: seq<Move>, n: nat)
    requires n <= |moves|
  {
    forall i :: n <= i < |moves| ==> !OverridesNow(Raced(NEW_RACE, moves[..i]), moves[i])
  }

  lemma MoveKeepsStatusExactly(r: Race, m: Move)
    ensures Moved(r, m).stored.status != r.stored.status <==> OverridesNow(r, m)
  {
    if m.Commits? && m.op in r.open {
      CommitChangesStatusExactly(r.stored, r.open[m.op]);
    }
  }

  lemma RacedOneMore(moves: seq<Move>, i: nat)
    requires i < |moves|
    ensures Raced(NEW_RACE, moves[..i + 1]) == Moved(Raced(NEW_RACE, moves[..i]), moves[i])
  {
    assert moves[..i + 1][..i] == moves[..i];
  }

  /** For any operations that overlap in any way, from any moment on: the status never changes again,
      a terminal one in particular, exactly when no later commit overrides what is stored. */
  lemma {:induction false} StatusIsFinalExactly(moves: seq<Move>, n: nat)
    requires n <= |moves|
    ensures StatusKept(moves, n) <==> NothingOverrides(moves, n)
  {
    if StatusKept(moves, n) {
      forall i | n <= i < |moves| ensures !OverridesNow(Raced(NEW_RACE, moves[..i]), moves[i]) {
        RacedOneMore(moves, i);
        MoveKeepsStatusExactly(Raced(NEW_RACE, moves[..i]), moves[i]);
      }
    }
    if NothingOverrides(moves, n) {
      forall m | n <= m <= |moves|
        ensures Raced(NEW_RACE, moves[..m]).stored.status == Raced(NEW_RACE, moves[..n]).stored.status
      {
        KeptUpTo(moves, n, m);
      }
    }
  }

  lemma {:induction false} KeptUpTo(moves: seq<Move>, n: nat, m: nat)
    requires n <= m <= |moves| && NothingOverrides(moves, n)
    ensures Raced(NEW_RACE, moves[..m]).stored.status == Raced(NEW_RACE, moves[..n]).stored.status
    decreases m
  {
    if n < m {
      KeptUpTo(moves, n, m - 1);
      RacedOneMore(moves, m - 1);
      MoveKeepsStatusExactly(Raced(NEW_RACE, moves[..m - 1]), moves[m - 1]);
    }
  }

  predicate RestampsNow(r: Race, m: Move) { m.Commits? && m.op in r.open && Restamps(r.stored, r.open[m.op]) }

  ghost predicate TimeKept(moves: seq<Move>, n: nat)
    requires n <= |moves|
  {
    forall m :: n <= m <= |moves| ==>
      Raced(NEW_RACE, moves[..m]).stored.terminalAt == Raced(NEW_RACE, moves[..n]).stored.terminalAt
  }

  ghost predicate NothingRestamps(moves: seq<Move>, n: nat)
    requires n <= |moves|
  {
    forall i :: n <= i < |moves| ==> !RestampsNow(Raced(NEW_RACE, moves[..i]), moves[i])
  }

  lemma MoveKeepsTimeExactly(r: Race, m: Move)
    ensures Moved(r, m).stored.terminalAt != r.stored.terminalAt <==> RestampsNow(r, m)
  {
    if m.Commits? && m.op in r.open {
      CommitMovesTimeExactly(r.stored, r.open[m.op]);
    }
  }

  lemma {:induction false} TimeKeptUpTo(moves: seq<Move>, n: nat, m: nat)
    requires n <= m <= |moves| && NothingRestamps(moves, n)
    ensures Raced(NEW_RACE, moves[..m]).stored.terminalAt == Raced(NEW_RACE, moves[..n]).stored.terminalAt
    decreases m
  {
    if n < m {
      TimeKeptUpTo(moves, n, m - 1);
      RacedOneMore(moves, m - 1);
      MoveKeepsTimeExactly(Raced(NEW_RACE, moves[..m - 1]), moves[m - 1]);
    }
  }

  /** ... and the time at which the order ended never moves exactly when no later commit restamps it. */
  lemma TimeIsFinalExactly(moves: seq<Move>, n: nat)
    requires n <= |moves|
    ensures TimeKept(moves, n) <==> NothingRestamps(moves, n)
  {
    if TimeKept(moves, n) {
      forall i | n <= i < |moves| ensures !RestampsNow(Raced(NEW_RACE, moves[..i]), moves[i]) {
        RacedOneMore(moves, i);
        MoveKeepsTimeExactly(Raced(NEW_RACE, moves[..i]), moves[i]);
      }
    }
    if NothingRestamps(moves, n) {
      forall m | n <= m <= |moves|
        ensures Raced(NEW_RACE, moves[..m]).stored.terminalAt == Raced(NEW_RACE, moves[..n]).stored.terminalAt
      {
        TimeKeptUpTo(moves, n, m);
      }
    }
  }

  /** No open operation on a terminal row overrides anything: whoever starts late is harmless. */
  lemma LateStartersAreHarmless(stored: OrderRow, o: Open)
    requires IsTerminal(o.loaded.status)
    ensures !Overrides(stored, o) && Written(stored, o) == stored
  {
  }

  // ---- The seal -----------------------------------------------------------------------------------------------

  /** A torn reply is committed over a row that has no time yet. */
  predicate TearsNow(r: Race, m: Move) {
    m.Commits? && m.op in r.open && Tears(r.open[m.op].loaded, r.open[m.op].touch) && r.stored.terminalAt.None?
  }

  /** A time that was loaded is still stored, and loaded rows were sealed. */
  ghost predicate TimesPersist(r: Race) {
    forall op :: op in r.open ==>
      Sealed(r.open[op].loaded) && (r.open[op].loaded.terminalAt.Some? ==> r.stored.terminalAt.Some?)
  }

  lemma TimesAreNeverErased(loaded: OrderRow, t: Touch)
    ensures loaded.terminalAt.Some? ==> Touched(loaded, t).terminalAt.Some?
  {
  }

  lemma CommitKeepsSealExactly(stored: OrderRow, o: Open)
    requires Sealed(stored) && Sealed(o.loaded) && (o.loaded.terminalAt.Some? ==> stored.terminalAt.Some?)
    ensures Sealed(Written(stored, o)) <==> !(Tears(o.loaded, o.touch) && stored.terminalAt.None?)
    ensures stored.terminalAt.Some? ==> Written(stored, o).terminalAt.Some?
  {
    SealKeptExactlyWithoutTear(o.loaded, o.touch);
    TimesAreNeverErased(o.loaded, o.touch);
  }

  lemma MoveKeepsSealExactly(r: Race, m: Move)
    requires Sealed(r.stored) && TimesPersist(r)
    ensures Sealed(Moved(r, m).stored) <==> !TearsNow(r, m)
    ensures !TearsNow(r, m) ==> TimesPersist(Moved(r, m))
  {
    if m.Commits? && m.op in r.open {
      CommitKeepsSealExactly(r.stored, r.open[m.op]);
    }
  }

  ghost predicate SealedAfter(moves: seq<Move>) { Sealed(Raced(NEW_RACE, moves).stored) }

  ghost predicate AlwaysSealed(moves: seq<Move>) {
    forall m :: 0 <= m <= |moves| ==> SealedAfter(moves[..m])
  }

  ghost predicate NothingTears(moves: seq<Move>) {
    forall i :: 0 <= i < |moves| ==> !TearsNow(Raced(NEW_RACE, moves[..i]), moves[i])
  }

  lemma AlwaysSealedSnoc(moves: seq<Move>)
    requires moves != []
    ensures AlwaysSealed(moves) <==> AlwaysSealed(moves[..|moves| - 1]) && SealedAfter(moves)
  {
    var front := moves[..|moves| - 1];
    assert moves[..|moves|] == moves;
    forall m | 0 <= m <= |front| ensures SealedAfter(front[..m]) <==> SealedAfter(moves[..m]) {
      assert front[..m] == moves[..m];
    }
  }

  lemma NothingTearsSnoc(moves: seq<Move>)
    requires moves != []
    ensures var front := moves[..|moves| - 1];
            NothingTears(moves) <==> NothingTears(front) && !TearsNow(Raced(NEW_RACE, front), moves[|moves| - 1])
  {
    var front := moves[..|moves| - 1];
    assert forall i :: 0 <= i < |front| ==> front[..i] == moves[..i] && front[i] == moves[i];
  }

  /** However operations overlap: terminal rows carry a time at every moment exactly when no torn
      reply is ever committed over a row without one. */
  lemma {:induction false} SealExactlyWithoutTear(moves: seq<Move>)
    ensures AlwaysSealed(moves) <==> NothingTears(moves)
    ensures AlwaysSealed(moves) ==> SealedAfter(moves) && TimesPersist(Raced(NEW_RACE, moves))
  {
    if moves != [] {
      var front := moves[..|moves| - 1];
      SealExactlyWithoutTear(front);
      AlwaysSealedSnoc(moves);
      NothingTearsSnoc(moves);
      if AlwaysSealed(front) {
        MoveKeepsSealExactly(Raced(NEW_RACE, front), moves[|moves| - 1]);
      }
    }
  }

  // ---- FILLED was reported ---------------------------------------------------------------------------------------

  ghost predicate Reported(moves: seq<Move>) {
    exists i :: 0 <= i < |moves| && moves[i].Starts? && ReportsFilled(moves[i].touch)
  }

  ghost predicate FilledOnlyIfReported(r: Race, moves: seq<Move>) {
    && (r.stored.status == FILLED ==> Reported(moves))
    && (forall op :: op in r.open ==>
          && (r.open[op].loaded.status == FILLED ==> Reported(moves))
          && (ReportsFilled(r.open[op].touch) ==> Reported(moves)))
  }

  /** Overlaps included, FILLED is stored only if some reply of the exchange said so. */
  lemma {:induction false} FilledWasReported(moves: seq<Move>)
    ensures FilledOnlyIfReported(Raced(NEW_RACE, moves), moves)
  {
    if moves != [] {
      var front, last := moves[..|moves| - 1], moves[|moves| - 1];
      FilledWasReported(front);
      if Reported(front) {
        var i :| 0 <= i < |front| && front[i].Starts? && ReportsFilled(front[i].touch);
        assert moves[i].Starts? && ReportsFilled(moves[i].touch);
      }
      assert last.Starts? && ReportsFilled(last.touch) ==> Reported(moves) by {
        assert moves[|moves| - 1] == last;
      }
      var r := Raced(NEW_RACE, front);
      if last.Commits? && last.op in r.open {
        TouchFacts(r.open[last.op].loaded, r.open[last.op].touch);
      }
    }
  }

  // ---- One at a time ------------------------------------------------------------------------------------------------

  function OneByOne(touches: seq<Touch>): seq<Move> {
    if touches == [] then [] else OneByOne(touches[..|touches| - 1]) + [Starts(0, touches[|touches| - 1]), Commits(0)]
  }

  lemma AloneIsTouched(row: OrderRow, t: Touch)
    ensures Moved(Moved(Race(row, map[]), Starts(0, t)), Commits(0)) == Race(Touched(row, t), map[])
  {
    var open := Moved(Race(row, map[]), Starts(0, t));
    assert open == Race(row, map[0 := Open(row, t)]);
    assert open.open - {0} == map[];
    assert WriteBack(row, row, Touched(row, t)) == Touched(row, t);
  }

  lemma TwoMore(moves: seq<Move>, a: Move, b: Move)
    ensures Raced(NEW_RACE, moves + [a, b]) == Moved(Moved(Raced(NEW_RACE, moves), a), b)
  {
    assert (moves + [a, b])[..|moves| + 1] == moves + [a] && (moves + [a])[..|moves|] == moves;
  }

  /** Operations that do not overlap write exactly what each computed. */
  lemma {:induction false} OneByOneIsTouchAll(touches: seq<Touch>)
    ensures Raced(NEW_RACE, OneByOne(touches)) == Race(TouchAll(NEW_ROW, touches), map[])
  {
    if touches != [] {
      var front, t := touches[..|touches| - 1], touches[|touches| - 1];
      OneByOneIsTouchAll(front);
      TwoMore(OneByOne(front), Starts(0, t), Commits(0));
      AloneIsTouched(TouchAll(NEW_ROW, front), t);
    }
  }

  /** The condition is met in practice: a read that loaded NEW and was told PARTIALLY_FILLED reopens
      an order that was canceled meanwhile, and leaves it its time. */
  lemma OverlappingReadRevivesOrder()
    ensures var loaded := NEW_ROW.(status := NEW, exchangeId := Some("1"));
            var cancel := Cancel(Ok(ExchangeOrder(Some("CANCELED"), Some("1"), None, None)), 2);
            var read := Read(Ok(ExchangeOrder(Some("PARTIALLY_FILLED"), Some("1"), None, None)), 3);
            var canceled := Written(loaded, Open(loaded, cancel));
            && canceled.status == CANCELED && Touched(canceled, read) == canceled
            && Overrides(canceled, Open(loaded, read))
            && Written(canceled, Open(loaded, read)) == canceled.(status := PARTIALLY_FILLED)
  {
  }
}
