/** The unit of work: staged operations, committed in one transaction or not at all. */
module DbContext {
  import opened Wrappers
  import opened Documents

  type Rows = map<TxnKey, Doc>

  datatype Op = Insert(key: TxnKey, doc: Doc) | Update(key: TxnKey, doc: Doc)

  /** No other row holds this fiscal number: uq_ecf_documents_rnc_emisor_encf would accept it. */
  predicate NumberFree(rows: Rows, k: TxnKey, n: FiscalKey) {
    forall j :: j in rows && j != k ==> KeyOf(j, rows[j]) != n
  }

  predicate UniqueNumbers(rows: Rows) {
    forall j, k :: j in rows && k in rows && j != k ==> KeyOf(j, rows[j]) != KeyOf(k, rows[k])
  }

  /** One statement: `None` is a unique violation; an UPDATE of an absent row touches nothing. */
  function Execute(rows: Rows, op: Op): Option<Rows> {
    match op
    case Insert(k, d) =>
      if k !in rows && NumberFree(rows, k, KeyOf(k, d)) then Some(rows[k := d]) else None
    case Update(k, d) =>
      if k !in rows then Some(rows)
      else if NumberFree(rows, k, KeyOf(k, d)) then Some(rows[k := d]) else None
  }

  function ExecuteAll(rows: Rows, ops: seq<Op>): Option<Rows>
    decreases |ops|
  {
    if ops == [] then Some(rows)
    else match Execute(rows, ops[0])
      case Some(next) => ExecuteAll(next, ops[1..])
      case None => None
  }

  lemma {:induction false} TransactionKeepsUniqueNumbers(rows: Rows, ops: seq<Op>)
    requires UniqueNumbers(rows)
    ensures ExecuteAll(rows, ops).Some? ==> UniqueNumbers(ExecuteAll(rows, ops).value)
    decreases |ops|
  {
    if ops != [] && Execute(rows, ops[0]).Some? {
      TransactionKeepsUniqueNumbers(Execute(rows, ops[0]).value, ops[1..]);
    }
  }

  lemma {:induction false} ExecuteSnoc(rows: Rows, ops: seq<Op>, op: Op)
    ensures ExecuteAll(rows, ops + [op]) ==
            match ExecuteAll(rows, ops)
            case Some(mid) => Execute(mid, op)
            case None => None
    decreases |ops|
  {
    if ops == [] {
      assert ops + [op] == [op];
      assert [op][1..] == [];
    } else {
      assert (ops + [op])[1..] == ops[1..] + [op];
      match Execute(rows, ops[0]) {
        case Some(next) => ExecuteSnoc(next, ops[1..], op);
        case None =>
      }
    }
  }

  /** One UPDATE for each key that has something to write, in this order. */
  function Updates(keys: seq<TxnKey>, write: map<TxnKey, Doc>): seq<Op>
    decreases |keys|
  {
    if keys == [] then []
    else (if keys[0] in write then [Update(keys[0], write[keys[0]])] else []) + Updates(keys[1..], write)
  }

  /** The table with these rows written over, whatever they hold now. */
  function Overwritten(rows: Rows, keys: seq<TxnKey>, write: map<TxnKey, Doc>): Rows {
    map k | k in rows :: if k in keys && k in write then write[k] else rows[k]
  }

  /** A transaction of updates either fails or writes every row over. */
  lemma {:induction false} UpdatesOverwrite(rows: Rows, keys: seq<TxnKey>, write: map<TxnKey, Doc>)
    ensures ExecuteAll(rows, Updates(keys, write)).Some? ==>
              ExecuteAll(rows, Updates(keys, write)).value == Overwritten(rows, keys, write)
    decreases |keys|
  {
    if keys == [] {
      assert Overwritten(rows, keys, write) == rows;
    } else {
      var rest := Updates(keys[1..], write);
      if keys[0] in write {
        var op := Update(keys[0], write[keys[0]]);
        assert ([op] + rest)[1..] == rest;
        match Execute(rows, op) {
          case None =>
          case Some(next) =>
            UpdatesOverwrite(next, keys[1..], write);
            assert Overwritten(next, keys[1..], write) == Overwritten(rows, keys, write);
        }
      } else {
        assert [] + rest == rest;
        UpdatesOverwrite(rows, keys[1..], write);
        assert Overwritten(rows, keys[1..], write) == Overwritten(rows, keys, write);
      }
    }
  }

  lemma {:induction false} UpdatesSnoc(keys: seq<TxnKey>, k: TxnKey, write: map<TxnKey, Doc>)
    requires k in write
    ensures Updates(keys + [k], write) == Updates(keys, write) + [Update(k, write[k])]
    decreases |keys|
  {
    if keys == [] {
      assert [k][1..] == [];
    } else {
      assert (keys + [k])[1..] == keys[1..] + [k];
      UpdatesSnoc(keys[1..], k, write);
    }
  }

  /** It does not fail on rows that keep their numbers. */
  lemma {:induction false} UpdatesSucceed(rows: Rows, keys: seq<TxnKey>, write: map<TxnKey, Doc>)
    requires UniqueNumbers(rows)
    requires forall k :: k in write && k in rows ==> KeyOf(k, write[k]) == KeyOf(k, rows[k])
    ensures ExecuteAll(rows, Updates(keys, write)).Some?
    decreases |keys|
  {
    if keys != [] {
      var rest := Updates(keys[1..], write);
      if keys[0] in write {
        var op := Update(keys[0], write[keys[0]]);
        assert ([op] + rest)[1..] == rest;
        UpdatesSucceed(Execute(rows, op).value, keys[1..], write);
      } else {
        assert [] + rest == rest;
        UpdatesSucceed(rows, keys[1..], write);
      }
    }
  }

  class Context {
    var rows: Rows
    var pending: seq<Op>

    constructor (rows: Rows)
      ensures this.rows == rows && pending == []
    {
      this.rows := rows;
      pending := [];
    }

    method Stage(op: Op)
      modifies this`pending
      ensures pending == old(pending) + [op]
    {
      pending := pending + [op];
    }

    /** `connected` is false when the connection drops before the commit is durable. */
    method SaveChanges(connected: bool) returns (committed: bool)
      modifies this
      ensures pending == []
      ensures committed <==> old(pending) == [] || (connected && ExecuteAll(old(rows), old(pending)).Some?)
      ensures committed ==> Some(rows) == ExecuteAll(old(rows), old(pending))
      ensures !committed ==> rows == old(rows)
    {
      if pending == [] {
        return true;
      }
      var work := rows;
      var i := 0;
      var failed := !connected;
      while i < |pending| && !failed
        invariant 0 <= i <= |pending|
        invariant pending == old(pending) && rows == old(rows)
        invariant !connected ==> failed
        invariant connected && !failed ==> ExecuteAll(rows, pending) == ExecuteAll(work, pending[i..])
        invariant connected && failed ==> ExecuteAll(rows, pending) == None
        decreases |pending| - i, !failed
      {
        match Execute(work, pending[i]) {
          case Some(next) =>
            assert pending[i..][1..] == pending[i + 1..];
            work := next;
            i := i + 1;
          case None =>
            failed := true;
        }
      }
      if !failed {
        rows := work;
      }
      pending := [];
      committed := !failed;
    }
  }
}
