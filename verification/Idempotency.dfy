/** Reservations of caller-supplied idempotency keys. */
module Idempotency {
  import opened Common

  datatype Op = Pause | Resume

  /** The endpoint part of a key's scope. The cancel and close endpoints are
      fixed strings in the source, so they carry no order id and no symbol. */
  datatype Endpoint =
    | CreateBot
    | UpdateBot(bot: nat)
    | TransitionBot(op: Op, bot: nat)
    | StopBot(bot: nat)
    | DeleteBot(bot: nat)
    | ActivateLive(bot: nat)
    | SimulationOrders(bot: nat)
    | Orders
    | CancelOrder
    | ClosePosition

  /** A key typed by a client, or one a bot transition derives from such a key. */
  datatype Key = Client(text: string) | Inner(op: Op, bot: nat, text: string)

  /** The scope of a reservation. Its hash is the exchange's client order id, so
      with an injective hash this triple is that id. */
  datatype KeyId = KeyId(user: nat, endpoint: Endpoint, key: Key)

  /** A stored key; a row without a response is still being processed. */
  datatype Row<+P, +R> = Row(payload: P, response: Option<R>)

  datatype Reservation<+R> = Fresh | Replay(response: R) | Conflict | InProgress

  /** How an existing row answers a second request for its key. */
  function Answered<P(==), R>(row: Row<P, R>, payload: P): Reservation<R> {
    if row.response.None? then InProgress
    else if row.payload != payload then Conflict
    else Replay(row.response.value)
  }

  /** Replay repeats the stored response, and only to the request that is stored; another request
      for the key is a conflict; while there is no response, every request is told to wait. */
  ghost predicate AnswersTruly<P, R>(r: Reservation<R>, stored: P, response: Option<R>, payload: P) {
    && (r.InProgress? <==> response.None?)
    && (r.Conflict? <==> response.Some? && stored != payload)
    && (r.Replay? <==> response.Some? && stored == payload)
    && (r.Replay? ==> response == Some(r.response))
  }

  class KeyTable<P(==), R> {
    var rows: map<KeyId, Row<P, R>>
    // Every finalization so far, in order.
    ghost var finalized: seq<KeyId>

    constructor ()
      ensures rows == map[] && finalized == []
    {
      rows := map[];
      finalized := [];
    }

    /** A key is claimed at most once; every later request for it leaves the table alone. */
    method Reserve(id: KeyId, payload: P) returns (r: Reservation<R>)
      modifies this`rows
      ensures r.Fresh? <==> id !in old(rows)
      ensures r.Fresh? ==> rows == old(rows)[id := Row(payload, None)]
      ensures !r.Fresh? ==> rows == old(rows) && r == Answered(rows[id], payload)
      ensures id in old(rows) ==> AnswersTruly(r, old(rows)[id].payload, old(rows)[id].response, payload)
    {
      if id in rows {
        var row := rows[id];
        if row.response.None? {
          return InProgress;
        }
        if row.payload != payload {
          return Conflict;
        }
        return Replay(row.response.value);
      }
      rows := rows[id := Row(payload, None)];
      return Fresh;
    }

    /** Stores the response of a claimed key; an unknown key is the source's ValueError. */
    method Finalize(id: KeyId, response: R) returns (found: bool)
      modifies this
      ensures found <==> id in old(rows)
      ensures found ==> rows == old(rows)[id := old(rows)[id].(response := Some(response))]
      ensures found ==> finalized == old(finalized) + [id]
      ensures !found ==> rows == old(rows) && finalized == old(finalized)
    {
      if id !in rows {
        return false;
      }
      rows := rows[id := rows[id].(response := Some(response))];
      finalized := finalized + [id];
      return true;
    }
  }
}
