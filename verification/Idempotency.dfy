/**
 DbIdempotencyStore and IdempotencyHandler: reserve a key, run the request, complete or release.
 Times are seconds.
 */
module Idempotency {
  import opened Wrappers
  import opened Documents

  const LEASE := 300
  const LIFE := 30 * 24 * 3600

  /** A stored response body; `doc` is its documentId member when the body is an object that has one. */
  datatype Body = Body(text: string, doc: Option<string>)

  const EMPTY := Body("", None)

  datatype Response = Response(code: int, contentType: string, body: Body)

  datatype Record = Record(worker: string, hash: string, completed: bool, response: Response,
                           created: int, expires: int)

  /** The table ecf_idempotency_records by its primary key. */
  type Records = map<string, Record>

  /** The state column of ecf_documents by document id. */
  type States = map<string, State>

  datatype Reservation = Reserved | AlreadyCompleted(response: Response) | AlreadyProcessing | PayloadMismatch

  predicate IsRejected(s: State) {
    s.RejectedByDgii? || s.SchemaInvalid? || s.SigningFailed?
  }

  /** isUnderlyingDocumentRejected */
  predicate BodyRejected(states: States, b: Body) {
    b.doc.Some? && b.doc.value != "" && b.doc.value in states && IsRejected(states[b.doc.value])
  }

  predicate Success(code: int) {
    200 <= code < 300
  }

  type Denial = r: Reservation | !r.Reserved? witness AlreadyProcessing

  /** The statement that reserveOrGet picks after its SELECT. */
  datatype Plan = Reply(reservation: Denial) | InsertNew | Reclaim | Reset

  predicate LeaseExpired(r: Record, now: int) {
    r.created < now - LEASE || r.expires < now
  }

  function PlanFor(records: Records, states: States, key: string, hash: string, now: int): Plan {
    if key !in records then InsertNew
    else
      var r := records[key];
      if r.hash != hash then
        if r.response.code >= 400 || BodyRejected(states, r.response.body) then Reset else Reply(PayloadMismatch)
      else if r.completed then
        if Success(r.response.code) && !BodyRejected(states, r.response.body)
        then Reply(AlreadyCompleted(r.response)) else Reset
      else if LeaseExpired(r, now) then Reclaim
      else Reply(AlreadyProcessing)
  }

  function NewRecord(worker: string, hash: string, now: int): Record {
    Record(worker, hash, false, Response(0, "application/json", EMPTY), now, now + LIFE)
  }

  function ResetRecord(r: Record, worker: string, hash: string, now: int): Record {
    r.(worker := worker, hash := hash, completed := false,
       response := r.response.(code := 0, body := EMPTY), created := now)
  }

  /** The chosen statement against the table as it is when the statement runs. */
  function Execute(records: Records, key: string, hash: string, worker: string, now: int,
                   plan: Plan): (Records, Reservation) {
    match plan
    case Reply(reservation) => (records, reservation)
    case InsertNew =>
      if key in records then (records, AlreadyProcessing)
      else (records[key := NewRecord(worker, hash, now)], Reserved)
    case Reclaim =>
      if key in records && !records[key].completed && records[key].created < now - LEASE
      then (records[key := records[key].(created := now, worker := worker)], Reserved)
      else (records, AlreadyProcessing)
    case Reset =>
      (if key in records then records[key := ResetRecord(records[key], worker, hash, now)] else records, Reserved)
  }

  function Reserve(records: Records, states: States, key: string, hash: string, worker: string,
                   now: int): (Records, Reservation) {
    Execute(records, key, hash, worker, now, PlanFor(records, states, key, hash, now))
  }

  function Complete(records: Records, key: string, response: Response): Records {
    if key in records && !records[key].completed
    then records[key := records[key].(completed := true, response := response)] else records
  }

  function Release(records: Records, key: string): Records {
    if key in records && !records[key].completed then records - {key} else records
  }

  /** Which responses the handler stores. */
  predicate Cached(code: int) {
    200 <= code < 500 && code != 401 && code != 403 && code != 408 && code != 409 && code != 429
  }

  /** What the end of a request does to its key; `None` is an exception. */
  function Finish(records: Records, key: string, outcome: Option<Response>): Records {
    if outcome.Some? && Cached(outcome.value.code) then Complete(records, key, outcome.value) else Release(records, key)
  }

  /** A record under way carries no answer yet. */
  predicate Blank(records: Records) {
    forall k :: k in records && !records[k].completed ==>
      records[k].response.code == 0 && records[k].response.body == EMPTY
  }

  /** The stored answer names a document that was rejected, or never got as far as DGII. */
  predicate Withdrawn(states: States, b: Body) {
    && b.doc.Some? && b.doc.value != "" && b.doc.value in states
    && states[b.doc.value] in {RejectedByDgii, SchemaInvalid, SigningFailed}
  }

  /** Exactly which answer a request gets, over every state of the record. */
  lemma ReservedIff(records: Records, states: States, key: string, hash: string, worker: string, now: int)
    requires Blank(records)
    ensures var (_, reply) := Reserve(records, states, key, hash, worker, now);
            && (key !in records ==> reply.Reserved?)
            && (key in records ==>
                  var r := records[key];
                  var withdrawn := Withdrawn(states, r.response.body);
                  && (reply.Reserved? <==>
                      || (r.completed && (r.response.code >= 400 || withdrawn
                                          || (r.hash == hash && !(200 <= r.response.code < 300))))
                      || (!r.completed && r.hash == hash && r.created < now - 300))
                  && (reply.AlreadyCompleted? <==>
                      r.completed && r.hash == hash && 200 <= r.response.code < 300 && !withdrawn)
                  && (reply.AlreadyCompleted? ==> reply.response == r.response)
                  && (reply.PayloadMismatch? <==> r.hash != hash && r.response.code < 400 && !withdrawn))
  {
  }

  /** What a reservation leaves in the table: the key under way for the caller, and everything else as it was. */
  lemma ReservationIsStored(records: Records, states: States, key: string, hash: string, worker: string, now: int)
    requires Blank(records)
    ensures var (after, reply) := Reserve(records, states, key, hash, worker, now);
            && after.Keys == records.Keys + (if reply.Reserved? then {key} else {})
            && (forall k :: k in records && (k != key || !reply.Reserved?) ==> after[k] == records[k])
            && (reply.Reserved? ==>
                  var r := after[key];
                  && !r.completed && r.worker == worker && r.hash == hash && r.created == now
                  && r.response.code == 0 && r.response.body.text == "" && r.response.body.doc.None?
                  && r.expires == if key in records then records[key].expires else now + 2592000)
  {
  }

  /** What the end of a request leaves: the answer of a key under way, or no record of it. */
  lemma FinishIff(records: Records, key: string, outcome: Option<Response>)
    requires key in records && !records[key].completed
    ensures var after := Finish(records, key, outcome);
            var kept := outcome.Some? && 200 <= outcome.value.code < 500
                        && outcome.value.code !in {401, 403, 408, 409, 429};
            && after.Keys == records.Keys - (if kept then {} else {key})
            && (kept ==> after[key] == records[key].(completed := true, response := outcome.value))
            && (forall k :: k in records && k != key ==> after[k] == records[k])
  {
  }

  class DbIdempotencyStore {
    var records: Records

    constructor ()
      ensures records == map[]
    {
      records := map[];
    }

    method ReserveOrGet(key: string, hash: string, worker: string, now: int, states: States)
      returns (reservation: Reservation)
      modifies this
      ensures (records, reservation) == Reserve(old(records), states, key, hash, worker, now)
      ensures old(Blank(records)) ==> Blank(records)
      ensures reservation.Reserved? && old(Blank(records)) ==>
                key in records && !records[key].completed && records[key].created == now && records[key].hash == hash
    {
      if key in records {
        var row := records[key];
        if row.hash != hash {
          if row.response.code >= 400 || BodyRejected(states, row.response.body) {
            row := row.(hash := hash, completed := false, created := now, worker := worker);
            row := row.(response := row.response.(code := 0, body := EMPTY));
            records := records[key := row];
            return Reserved;
          }
          return PayloadMismatch;
        }
        if row.completed {
          if Success(row.response.code) && !BodyRejected(states, row.response.body) {
            return AlreadyCompleted(row.response);
          }
          row := row.(completed := false, created := now, worker := worker);
          row := row.(response := row.response.(code := 0, body := EMPTY));
          records := records[key := row];
          return Reserved;
        }
        if LeaseExpired(row, now) {
          if row.created < now - LEASE {
            row := row.(created := now, worker := worker);
            records := records[key := row];
            return Reserved;
          }
        }
        return AlreadyProcessing;
      }
      records := records[key := NewRecord(worker, hash, now)];
      reservation := Reserved;
    }

    method CompleteKey(key: string, response: Response)
      modifies this
      ensures records == Complete(old(records), key, response)
    {
      if key in records && !records[key].completed {
        var row := records[key].(completed := true);
        records := records[key := row.(response := response)];
      }
    }

    method ReleaseKey(key: string, connected: bool)
      modifies this
      ensures records == if connected then Release(old(records), key) else old(records)
    {
      if connected && key in records && !records[key].completed {
        records := records - {key};
      }
    }
  }

  datatype Verb = Get | Post | Put | Patch | Delete

  datatype Reaction = Ran(outcome: Option<Response>) | Replayed(response: Response) | Busy | Mismatch

  /** IdempotencyHandler::handle; `outcome` is what the wrapped handler would answer. */
  method Handle(store: DbIdempotencyStore, header: string, verb: Verb, tenant: string, hash: string, worker: string,
                now: int, states: States, outcome: Option<Response>) returns (reaction: Reaction)
    modifies store
    ensures header == "" || verb.Get? || verb.Delete? ==>
              reaction == Ran(outcome) && store.records == old(store.records)
    ensures header != "" && !verb.Get? && !verb.Delete? ==>
              var key := tenant + ":" + header;
              var (reserved, reservation) := Reserve(old(store.records), states, key, hash, worker, now);
              && (reservation.Reserved? ==> reaction == Ran(outcome) && store.records == Finish(reserved, key, outcome))
              && (!reservation.Reserved? ==> store.records == old(store.records) && !reaction.Ran?)
              && (reservation.AlreadyCompleted? <==> reaction.Replayed?)
              && (reaction.Replayed? ==> reaction.response == reservation.response)
              && (reservation.PayloadMismatch? <==> reaction.Mismatch?)
  {
    if header == "" || (verb != Post && verb != Put && verb != Patch) {
      return Ran(outcome);
    }
    var key := tenant + ":" + header;
    var reservation := store.ReserveOrGet(key, hash, worker, now, states);
    match reservation {
      case AlreadyCompleted(response) => return Replayed(response);
      case AlreadyProcessing => return Busy;
      case PayloadMismatch => return Mismatch;
      case Reserved =>
        if outcome.Some? && Cached(outcome.value.code) {
          store.CompleteKey(key, outcome.value);
        } else {
          store.ReleaseKey(key, true);
        }
        return Ran(outcome);
    }
  }
}
