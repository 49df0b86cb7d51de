/** EcfStatusReconciler: one batch pass over the rows that wait for a verdict. Times are seconds. */
module Reconciler {
  import opened Wrappers
  import opened Documents
  import Estado
  import D = DbContext

  datatype Options = Options(minAgeMinutes: nat, intervalMinutes: nat, windowHours: nat)

  const BATCH := 100

  /** What DGII says about one row; `None` is a failed query. */
  datatype Answer = Answer(resultado: Option<string>, estado: Option<string>)

  predicate Polling(d: Doc) {
    d.state.Signed? || d.state.SentToDgii?
  }

  predicate Due(d: Doc, now: int, o: Options) {
    && Polling(d)
    && d.sentAt.Some? && d.sentAt.value <= now - o.minAgeMinutes * 60
    && (d.lastCheck.Some? ==> d.lastCheck.value <= now - o.intervalMinutes * 60)
  }

  predicate Aged(d: Doc, now: int, o: Options) {
    d.sentAt.Some? && now - d.sentAt.value >= o.windowHours * 3600
  }

  /** The oldest BATCH due rows, each once: what the repository's query may return. */
  predicate IsDueBatch(rows: D.Rows, now: int, o: Options, due: seq<TxnKey>) {
    && |due| <= BATCH
    && (forall i :: 0 <= i < |due| ==> due[i] in rows && Due(rows[due[i]], now, o))
    && (forall i, j :: 0 <= i < j < |due| ==> due[i] != due[j])
    && (forall k :: k in rows && k !in due && Due(rows[k], now, o) ==> |due| == BATCH)
    && (forall i, j :: 0 <= i < j < |due| ==> rows[due[i]].sentAt.value <= rows[due[j]].sentAt.value)
    && (forall i, k :: 0 <= i < |due| && k in rows && k !in due && Due(rows[k], now, o) ==>
          rows[due[i]].sentAt.value <= rows[k].sentAt.value)
  }

  /** The status text that counts, or `None` when the last query threw. */
  function StatusText(d: Doc, a: Answer): Option<string> {
    var first := if HasTrack(d) && a.resultado.Some? then Estado.Trim(a.resultado.value) else "";
    if first == "" || Estado.SaysNotFound(first) then
      match a.estado
      case None => None
      case Some(text) => Some(if text != "" then Estado.Trim(text) else first)
    else
      Some(first)
  }

  function Verdict(d: Doc, a: Answer): Estado.Verdict {
    match StatusText(d, a)
    case None => Estado.Missing
    case Some(text) =>
      if Estado.Lower(text) == "aceptado" || Estado.Lower(text) == "aceptado condicional" then Estado.Accepts
      else if Estado.Lower(text) == "rechazado" then Estado.Rejects
      else Estado.InProcess
  }

  function Checked(d: Doc, now: int, o: Options, a: Answer): Doc {
    if Aged(d, now, o) then
      d.(state := RequiresManualReview, lastCheck := Some(now))
    else
      var counted := d.(lastCheck := Some(now), attempts := d.attempts + 1);
      match Verdict(d, a)
      case Accepts => counted.(state := AcceptedByDgii)
      case Rejects => counted.(state := RejectedByDgii)
      case _ => counted
  }

  lemma CheckedKeepsNumber(d: Doc, now: int, o: Options, a: Answer)
    ensures var c := Checked(d, now, o, a);
            c.rnc == d.rnc && c.encf == d.encf && c.lastCheck == Some(now)
  {
    hide Verdict, Aged;
  }

  /** What a pass means to write: every row it read, as it read it, with the answer it heard. */
  function Written(read: map<TxnKey, Doc>, now: int, o: Options, answer: map<TxnKey, Answer>): map<TxnKey, Doc>
    requires forall k :: k in read ==> k in answer
  {
    map k | k in read :: Checked(read[k], now, o, answer[k])
  }

  function Snapshot(rows: D.Rows, keys: seq<TxnKey>): map<TxnKey, Doc>
    requires forall k :: k in keys ==> k in rows
  {
    map k | k in keys :: rows[k]
  }

  predicate CheckedMoves(d: Doc, c: Doc, now: int) {
    && (c.state == d.state || c.state in {AcceptedByDgii, RejectedByDgii, RequiresManualReview})
    && c.lastCheck == Some(now)
  }

  lemma CheckMoves(d: Doc, now: int, o: Options, a: Answer)
    ensures CheckedMoves(d, Checked(d, now, o, a), now)
    ensures Polling(d) ==> (Checked(d, now, o, a).state.RequiresManualReview? <==> Overdue(d, now, o.windowHours))
  {
    hide Verdict;
  }

  /** The window is in hours, all times are in seconds. */
  predicate Overdue(d: Doc, now: int, hours: nat) {
    d.sentAt.Some? && d.sentAt.value <= now - 3600 * hours
  }

  /** Rows that wait for a verdict, sent long enough ago and not checked within the interval. */
  function DueKeys(rows: D.Rows, now: int, o: Options): set<TxnKey> {
    set k | k in rows && rows[k].state in {Signed, SentToDgii}
            && rows[k].sentAt.Some? && rows[k].sentAt.value <= now - 60 * o.minAgeMinutes
            && (rows[k].lastCheck.None? || rows[k].lastCheck.value <= now - 60 * o.intervalMinutes)
  }

  lemma {:induction false} EachOnce(due: seq<TxnKey>)
    requires forall i, j :: 0 <= i < j < |due| ==> due[i] != due[j]
    ensures |set k | k in due| == |due|
  {
    if due != [] {
      EachOnce(due[1..]);
      assert (set k | k in due) == {due[0]} + set k | k in due[1..];
    }
  }

  /** The limit leaves nothing out while at most BATCH rows are due. */
  lemma SmallBatchIsAll(rows: D.Rows, now: int, o: Options, due: seq<TxnKey>)
    requires IsDueBatch(rows, now, o, due) && |DueKeys(rows, now, o)| <= BATCH
    ensures DueKeys(rows, now, o) == set k | k in due
  {
    assert forall k :: k in rows ==> (k in DueKeys(rows, now, o) <==> Due(rows[k], now, o));
    assert forall k :: k in due ==> k in rows && Due(rows[k], now, o);
    hide Due, DueKeys;
    var batch := set k | k in due;
    var all := DueKeys(rows, now, o);
    EachOnce(due);
    DueAreStored(rows, now, o);
    assert all == batch + (all - batch);
    forall k | k in all ensures k in due {
      assert |due| == BATCH ==> k !in all - batch;
    }
  }

  lemma DueAreStored(rows: D.Rows, now: int, o: Options)
    ensures forall k :: k in DueKeys(rows, now, o) ==> k in rows
  {
  }

  /**
   A pass that commits while its rows are still as it read them: where rows may go, and that
   nothing overdue in its batch keeps polling. `rows` is the table at the commit, `was` the table it read.
   */
  lemma PassOutcome(was: D.Rows, rows: D.Rows, now: int, o: Options, due: seq<TxnKey>, answer: map<TxnKey, Answer>)
    requires IsDueBatch(was, now, o, due)
    requires forall k :: k in due ==> k in answer && k in rows && rows[k] == was[k]
    ensures var after := D.Overwritten(rows, due, Written(Snapshot(was, due), now, o, answer));
            && after.Keys == rows.Keys
            && (forall k :: k in rows && after[k] != rows[k] ==>
                  && rows[k].state in {Signed, SentToDgii}
                  && (after[k].state == rows[k].state
                      || after[k].state in {AcceptedByDgii, RejectedByDgii, RequiresManualReview})
                  && after[k].lastCheck == Some(now)
                  && (rows[k].lastCheck.Some? ==> now - rows[k].lastCheck.value >= 60 * o.intervalMinutes))
            && (forall k :: k in due ==>
                  && after[k].lastCheck == Some(now)
                  && (after[k].state.RequiresManualReview? <==> Overdue(was[k], now, o.windowHours)))
            && (|DueKeys(was, now, o)| <= BATCH ==>
                  forall k :: k in DueKeys(was, now, o) && Overdue(was[k], now, o.windowHours) ==>
                    k in due && after[k].state.RequiresManualReview?)
  {
    hide Checked, Aged, Overdue;
    if |DueKeys(was, now, o)| <= BATCH {
      SmallBatchIsAll(was, now, o, due);
    }
    forall k | k in due
      ensures CheckedMoves(was[k], Checked(was[k], now, o, answer[k]), now) && Due(was[k], now, o)
      ensures Checked(was[k], now, o, answer[k]).state.RequiresManualReview? <==> Overdue(was[k], now, o.windowHours)
    {
      CheckMoves(was[k], now, o, answer[k]);
    }
  }

  class EcfStatusReconciler {
    const db: D.Context
    const options: Options

    constructor (db: D.Context, options: Options)
      ensures this.db == db && this.options == options
    {
      this.db := db;
      this.options := options;
    }

    /** The loop body on one document: too old for polling, or asked about once more. */
    method Check(row: Doc, now: int, answer: Answer) returns (doc: Doc)
      ensures doc == Checked(row, now, options, answer)
    {
      doc := row;
      if doc.sentAt.Some? && now - doc.sentAt.value >= options.windowHours * 3600 {
        doc := doc.(state := RequiresManualReview, lastCheck := Some(now));
        return;
      }
      var estado := "";
      if HasTrack(doc) && answer.resultado.Some? {
        estado := Estado.Trim(answer.resultado.value);
      }
      var queryFailed := false;
      if estado == "" || Estado.SaysNotFound(estado) {
        match answer.estado {
          case None => queryFailed := true;
          case Some(text) =>
            if text != "" {
              estado := Estado.Trim(text);
            }
        }
      }
      doc := doc.(lastCheck := Some(now), attempts := doc.attempts + 1);
      if !queryFailed {
        if Estado.Lower(estado) == "aceptado" || Estado.Lower(estado) == "aceptado condicional" {
          doc := doc.(state := AcceptedByDgii);
        } else if Estado.Lower(estado) == "rechazado" {
          doc := doc.(state := RejectedByDgii);
        }
      }
    }

    /** Any commits of anybody else. */
    method Meanwhile()
      requires D.UniqueNumbers(db.rows)
      modifies db`rows
      ensures D.UniqueNumbers(db.rows)
    {
      var rows: D.Rows := *;
      if D.UniqueNumbers(rows) {
        db.rows := rows;
      }
    }

    /** The loop: one copy after the other is asked about and staged, with commits of others in between. */
    method StageAll(table: D.Rows, now: int, due: seq<TxnKey>, answer: map<TxnKey, Answer>) returns (processed: nat)
      requires D.UniqueNumbers(db.rows) && db.pending == []
      requires forall k :: k in due ==> k in table && k in answer
      modifies db
      ensures processed == |due| && D.UniqueNumbers(db.rows)
      ensures db.pending == D.Updates(due, Written(Snapshot(table, due), now, options, answer))
    {
      ghost var write := Written(Snapshot(table, due), now, options, answer);
      StagedNothing(due, write);
      hide Checked, D.UniqueNumbers, D.Updates;
      processed := 0;
      for i := 0 to |due|
        invariant processed == i
        invariant db.pending == D.Updates(due[..i], write)
        invariant D.UniqueNumbers(db.rows)
      {
        processed := processed + 1;
        Meanwhile();
        var doc := Check(table[due[i]], now, answer[due[i]]);
        db.Stage(D.Update(due[i], doc));
        D.UpdatesSnoc(due[..i], due[i], write);
        assert due[..i + 1] == due[..i] + [due[i]];
      }
      assert due[..|due|] == due;
    }

    /**
     Reads the batch, asks about each row, stages its private copies, and commits all of them or
     none over whatever the table holds by then (`at`).
     */
    method Reconcile(now: int, due: seq<TxnKey>, answer: map<TxnKey, Answer>, connected: bool)
      returns (processed: nat, ghost at: D.Rows)
      requires D.UniqueNumbers(db.rows) && db.pending == []
      requires IsDueBatch(db.rows, now, options, due)
      requires forall k :: k in due ==> k in answer
      modifies db
      ensures processed == |due| && db.pending == []
      ensures var write := Written(Snapshot(old(db.rows), due), now, options, answer);
              var result := D.ExecuteAll(at, D.Updates(due, write));
              db.rows == if connected && result.Some? then D.Overwritten(at, due, write) else at
      ensures D.UniqueNumbers(at) && D.UniqueNumbers(db.rows)
    {
      var table := db.rows;
      ghost var write := Written(Snapshot(table, due), now, options, answer);
      hide Written, Snapshot, Due, Checked, D.UniqueNumbers, D.ExecuteAll, D.Updates, D.Overwritten;
      processed := StageAll(table, now, due, answer);
      Meanwhile();
      at := db.rows;
      PassCommits(at, due, write);
      if processed > 0 {
        var _ := db.SaveChanges(connected);
      }
    }
  }

  lemma StagedNothing(due: seq<TxnKey>, write: map<TxnKey, Doc>)
    ensures D.Updates(due[..0], write) == []
  {
  }

  /** The transaction of a pass, over whatever table it meets. */
  lemma PassCommits(at: D.Rows, due: seq<TxnKey>, write: map<TxnKey, Doc>)
    requires D.UniqueNumbers(at) && forall k :: k in due ==> k in write
    ensures var result := D.ExecuteAll(at, D.Updates(due, write));
            && (result.Some? ==> result.value == D.Overwritten(at, due, write) && D.UniqueNumbers(result.value))
            && (due == [] ==> D.Overwritten(at, due, write) == at)
            && (D.Updates(due, write) == [] ==> due == [])
  {
    D.UpdatesOverwrite(at, due, write);
    D.TransactionKeepsUniqueNumbers(at, D.Updates(due, write));
  }
}
