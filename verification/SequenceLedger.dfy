/** Draws and releases of many holders in any order: no number is ever held twice. */
module SequenceLedger {
  import opened Wrappers
  import opened EncfText
  import opened EcfSequences
  import Estado

  /** One drawn number in the hands of the request that drew it. */
  datatype Ticket = Ticket(id: nat, number: nat, scope: string, tipo: string, prefix: string, day: int)

  /** The text that the drawer received, and hands in when it gives the number back. */
  function Encf(h: Ticket): string {
    Format(h.prefix, h.number)
  }

  /** `out` holds, by row, the numbers issued and not successfully released. */
  datatype Ledger = Ledger(table: Table, out: map<nat, set<int>>, held: map<nat, Ticket>, serial: nat)

  datatype Action = TryDraw(scope: string, tipo: string, today: int) | GiveBack(ticket: nat, connected: bool)

  ghost function Act(l: Ledger, a: Action): Ledger {
    match a
    case TryDraw(scope, tipo, today) =>
      (match Draw(l.table, scope, tipo, today)
       case Err(_) => l
       case Ok(drawn) =>
         var r := drawn.0[drawn.1];
         if drawn.1 in l.out && r.actual >= 0 then
           Ledger(drawn.0, l.out[drawn.1 := l.out[drawn.1] + {r.actual}],
                  l.held[l.serial := Ticket(drawn.1, r.actual, scope, tipo, r.prefix, today)], l.serial + 1)
         else l)
    case GiveBack(k, connected) =>
      if k !in l.held then l
      else
        var h := l.held[k];
        var t := if connected then Release(l.table, h.scope, h.tipo, Encf(h)) else l.table;
        if h.id in l.table && h.id in t && h.id in l.out && t[h.id].actual != l.table[h.id].actual
        then Ledger(t, l.out[h.id := l.out[h.id] - {h.number}], l.held - {k}, l.serial)
        else l.(table := t, held := l.held - {k})
  }

  ghost function ActAll(l: Ledger, s: seq<Action>): Ledger
    decreases |s|
  {
    if s == [] then l else ActAll(Act(l, s[0]), s[1..])
  }

  /** The set is the numbers above `low` up to `high`. */
  ghost predicate IsInterval(s: set<int>, low: int, high: int) {
    forall n :: n in s <==> low < n <= high
  }

  /** Before any draw: nothing is out and nobody holds anything. */
  ghost predicate Fresh(l: Ledger, start: map<nat, int>) {
    && UniqueScopes(l.table)
    && ShortPrefixes(l.table)
    && start.Keys == l.table.Keys && (forall id :: id in l.table ==> start[id] == Top(l.table[id]))
    && l.out.Keys == l.table.Keys && (forall id :: id in l.table ==> l.out[id] == {})
    && l.held == map[]
  }

  ghost predicate RowExact(r: Range, out: set<int>, low: int) {
    && r.desde - 1 <= low <= Top(r)
    && (low < Top(r) ==> Top(r) <= r.hasta)
    && IsInterval(out, low, Top(r))
  }

  lemma RowIssued(r: Range, out: set<int>, low: int, scope: string)
    requires RowExact(r, out, low) && Top(r) < r.hasta
    ensures RowExact(r.(tenant := scope, actual := Top(r) + 1), out + {Top(r) + 1}, low)
    ensures Top(r) + 1 !in out
  {
  }

  lemma RowReturned(r: Range, out: set<int>, low: int)
    requires RowExact(r, out, low) && r.actual in out
    ensures RowExact(r.(actual := r.actual - 1), out - {r.actual}, low)
  {
    assert low < r.actual == Top(r);
  }

  /** Each row's outstanding numbers are exactly the interval from its starting point. */
  ghost predicate Exact(l: Ledger, start: map<nat, int>) {
    && l.out.Keys == l.table.Keys == start.Keys
    && (forall id :: id in l.table ==> RowExact(l.table[id], l.out[id], start[id]))
  }

  predicate Backs(h: Ticket, r: Range, out: set<int>) {
    h.number in out && h.prefix == r.prefix && r.tipo == h.tipo
  }

  /**
   The row is still under the scope it was drawn for, or was renamed to the other spelling and no row
   has that scope.
   */
  ghost predicate InScope(t: Table, h: Ticket)
    requires h.id in t
  {
    || t[h.id].tenant == h.scope
    || (Alias(h.scope) == Some(t[h.id].tenant)
        && forall id :: id in t ==> t[id].tenant != h.scope || t[id].tipo != h.tipo)
  }

  ghost predicate HeldOk(l: Ledger, k: nat)
    requires k in l.held
  {
    var h := l.held[k];
    h.id in l.table && h.id in l.out && Backs(h, l.table[h.id], l.out[h.id]) && InScope(l.table, h)
  }

  ghost predicate AllHeldOk(l: Ledger) {
    forall k :: k in l.held ==> k < l.serial && HeldOk(l, k)
  }

  /** No two holders share a number of one row. */
  predicate Apart(l: Ledger) {
    forall j, k :: j in l.held && k in l.held && j != k && l.held[j].id == l.held[k].id ==>
      l.held[j].number != l.held[k].number
  }

  ghost predicate Sound(l: Ledger, start: map<nat, int>) {
    UniqueScopes(l.table) && ShortPrefixes(l.table) && Exact(l, start) && AllHeldOk(l) && Apart(l)
  }

  /** releaseUnusedEncf cuts three characters off the text, as all of DGII's prefixes have. */
  predicate ShortPrefixes(t: Table) {
    forall id :: id in t ==> |t[id].prefix| == 3
  }

  /** The scopes in use that have another spelling write their environment in its own capitals. */
  predicate SpelledScopes(scopes: set<string>) {
    forall s :: s in scopes && Alias(s).Some? ==> Alias(Alias(s).value) == Some(s)
  }

  predicate UsesOnly(a: Action, scopes: set<string>) {
    a.TryDraw? ==> a.scope in scopes
  }

  /** No range belongs to the bare tenant of a scope in use. */
  predicate NoBareRange(t: Table, scopes: set<string>) {
    forall s, id :: s in scopes && id in t ==> Bare(s) != Some(t[id].tenant)
  }

  predicate HeldScopes(l: Ledger, scopes: set<string>) {
    forall k :: k in l.held ==> l.held[k].scope in scopes
  }

  lemma DrawShape(t: Table, scope: string, tipo: string, today: int)
    requires UniqueScopes(t) && Draw(t, scope, tipo, today).Ok?
    ensures var (t', id) := Draw(t, scope, tipo, today).value;
            && id in t && t'.Keys == t.Keys && UniqueScopes(t')
            && t'[id] == t[id].(tenant := scope, actual := Top(t[id]) + 1)
            && t[id].tipo == tipo
            && (t[id].tenant == scope || Alias(scope) == Some(t[id].tenant))
            && Top(t[id]) < t[id].hasta
            && (forall j :: j in t && j != id ==> t'[j] == t[j])
  {
  }

  /** The ledger after one successful draw from row `id`. */
  function Issued(l: Ledger, t: Table, id: nat, n: nat, scope: string, tipo: string, day: int): Ledger
    requires id in l.out && id in t
  {
    Ledger(t, l.out[id := l.out[id] + {n}],
           l.held[l.serial := Ticket(id, n, scope, tipo, t[id].prefix, day)], l.serial + 1)
  }

  lemma SamePrefixes(t: Table, t': Table)
    requires ShortPrefixes(t) && t'.Keys == t.Keys
    requires forall id :: id in t ==> t'[id].prefix == t[id].prefix
    ensures ShortPrefixes(t')
  {
  }

  lemma IssuedExact(l: Ledger, t: Table, id: nat, scope: string, tipo: string, day: int, start: map<nat, int>)
    requires Exact(l, start) && id in l.table && t.Keys == l.table.Keys
    requires t[id] == l.table[id].(tenant := scope, actual := Top(l.table[id]) + 1)
    requires forall j :: j in t && j != id ==> t[j] == l.table[j]
    requires -1 <= Top(l.table[id]) < l.table[id].hasta
    ensures Exact(Issued(l, t, id, Top(l.table[id]) + 1, scope, tipo, day), start)
  {
    assert RowExact(l.table[id], l.out[id], start[id]);
    RowIssued(l.table[id], l.out[id], start[id], scope);
  }

  /** A draw, with or without a renaming, leaves every held number with its row. */
  lemma IssuedInScope(l: Ledger, t: Table, id: nat, scope: string, scopes: set<string>, k: nat)
    requires AllHeldOk(l) && UniqueScopes(l.table) && HeldScopes(l, scopes) && SpelledScopes(scopes) && scope in scopes
    requires id in l.table && t.Keys == l.table.Keys && UniqueScopes(t)
    requires l.table[id].tenant == scope || Alias(scope) == Some(l.table[id].tenant)
    requires t[id] == l.table[id].(tenant := scope, actual := Top(l.table[id]) + 1)
    requires forall j :: j in t && j != id ==> t[j] == l.table[j]
    requires k in l.held && l.held[k].id in l.table
    ensures InScope(t, l.held[k])
  {
    hide Alias, Top;
    var h := l.held[k];
    assert HeldOk(l, k);
    assert l.table[h.id].tenant == l.table[id].tenant && l.table[h.id].tipo == l.table[id].tipo ==> h.id == id;
    if h.id == id {
      if l.table[id].tenant != scope && h.scope == l.table[id].tenant {
        assert Alias(h.scope) == Some(scope);
      }
    }
  }

  lemma IssuedHeld(l: Ledger, t: Table, id: nat, scope: string, tipo: string, day: int, start: map<nat, int>)
    requires AllHeldOk(l) && Exact(l, start)
    requires id in l.table && t.Keys == l.table.Keys && l.table[id].tipo == tipo
    requires forall k :: k in l.held && l.held[k].id in l.table ==> InScope(t, l.held[k])
    requires t[id] == l.table[id].(tenant := scope, actual := Top(l.table[id]) + 1)
    requires forall j :: j in t && j != id ==> t[j] == l.table[j]
    requires Top(l.table[id]) + 1 >= 0
    ensures AllHeldOk(Issued(l, t, id, Top(l.table[id]) + 1, scope, tipo, day))
  {
    hide InScope;
    var l' := Issued(l, t, id, Top(l.table[id]) + 1, scope, tipo, day);
    forall k | k in l'.held ensures k < l'.serial && HeldOk(l', k) {
      if k != l.serial {
        assert HeldOk(l, k);
      } else {
        NewInScope(t, l'.held[k]);
      }
    }
  }

  lemma NewInScope(t: Table, h: Ticket)
    requires h.id in t && t[h.id].tenant == h.scope
    ensures InScope(t, h)
  {
  }

  lemma IssuedApart(l: Ledger, t: Table, id: nat, scope: string, tipo: string, day: int, start: map<nat, int>)
    requires Apart(l)
    requires AllHeldOk(l) && Exact(l, start)
    requires id in l.table && t.Keys == l.table.Keys && l.table[id].tipo == tipo
    requires t[id] == l.table[id].(tenant := scope, actual := Top(l.table[id]) + 1)
    requires forall j :: j in t && j != id ==> t[j] == l.table[j]
    requires Top(l.table[id]) + 1 >= 0
    ensures Apart(Issued(l, t, id, Top(l.table[id]) + 1, scope, tipo, day))
  {
    forall k | k in l.held && l.held[k].id == id ensures l.held[k].number <= Top(l.table[id]) {
      assert HeldOk(l, k) && RowExact(l.table[id], l.out[id], start[id]);
    }
  }

  lemma IssuedScopes(l: Ledger, t: Table, id: nat, n: nat, scope: string, tipo: string, day: int, scopes: set<string>)
    requires HeldScopes(l, scopes) && scope in scopes && id in l.out && id in t
    ensures HeldScopes(Issued(l, t, id, n, scope, tipo, day), scopes)
  {
  }

  lemma ActDraw(l: Ledger, a: Action)
    requires a.TryDraw? && UniqueScopes(l.table) && l.out.Keys == l.table.Keys
    ensures match Draw(l.table, a.scope, a.tipo, a.today)
            case Err(_) => Act(l, a) == l
            case Ok(drawn) =>
              && drawn.1 in l.table
              && (Top(l.table[drawn.1]) + 1 >= 0 ==>
                    Act(l, a) == Issued(l, drawn.0, drawn.1, Top(l.table[drawn.1]) + 1, a.scope, a.tipo, a.today))
  {
    if Draw(l.table, a.scope, a.tipo, a.today).Ok? {
      DrawShape(l.table, a.scope, a.tipo, a.today);
    }
  }

  /** A scope with another spelling has a colon, which no bare tenant has. */
  lemma AliasIsNotBare(scope: string, s: string)
    requires Alias(scope).Some?
    ensures Bare(s) != Some(scope)
  {
    assert ':' in scope by {
      var suffix := if EndsWithNoCase(scope, ":PreCertificacion") then ":PreCertificacion"
                    else if EndsWithNoCase(scope, ":TestEcf") then ":TestEcf"
                    else if EndsWithNoCase(scope, ":Certificacion") then ":Certificacion" else ":CertEcf";
      assert Estado.Lower(scope[|scope| - |suffix|..])[0] == Estado.Lower(suffix)[0];
      assert scope[|scope| - |suffix|] == ':';
    }
  }

  /** So a renaming keeps bare tenants without ranges. */
  lemma RenamedBare(t: Table, t': Table, scope: string, scopes: set<string>)
    requires NoBareRange(t, scopes) && t'.Keys == t.Keys
    requires forall id :: id in t ==> t'[id].tenant == t[id].tenant || (t'[id].tenant == scope && Alias(scope).Some?)
    ensures NoBareRange(t', scopes)
  {
    hide Alias, Bare;
    forall s, id | s in scopes && id in t' ensures Bare(s) != Some(t'[id].tenant) {
      if t'[id].tenant != t[id].tenant {
        AliasIsNotBare(scope, s);
      }
    }
  }

  lemma SoundDraw(l: Ledger, a: Action, start: map<nat, int>, scopes: set<string>)
    requires Sound(l, start) && HeldScopes(l, scopes) && SpelledScopes(scopes) && NoBareRange(l.table, scopes)
    requires a.TryDraw? && UsesOnly(a, scopes)
    ensures Sound(Act(l, a), start) && HeldScopes(Act(l, a), scopes) && NoBareRange(Act(l, a).table, scopes)
  {
    ActDraw(l, a);
    if Draw(l.table, a.scope, a.tipo, a.today).Ok? {
      DrawShape(l.table, a.scope, a.tipo, a.today);
      var (t, id) := Draw(l.table, a.scope, a.tipo, a.today).value;
      SettleIssued(l, t, id, a.scope, a.tipo, a.today, start, scopes);
    }
  }

  lemma SettleIssued(l: Ledger, t: Table, id: nat, scope: string, tipo: string, day: int,
                     start: map<nat, int>, scopes: set<string>)
    requires Sound(l, start) && HeldScopes(l, scopes) && SpelledScopes(scopes) && NoBareRange(l.table, scopes)
    requires scope in scopes && UniqueScopes(t)
    requires id in l.table && t.Keys == l.table.Keys && l.table[id].tipo == tipo
    requires t[id] == l.table[id].(tenant := scope, actual := Top(l.table[id]) + 1)
    requires l.table[id].tenant == scope || Alias(scope) == Some(l.table[id].tenant)
    requires forall j :: j in t && j != id ==> t[j] == l.table[j]
    requires Top(l.table[id]) < l.table[id].hasta
    ensures var l' := Issued(l, t, id, Top(l.table[id]) + 1, scope, tipo, day);
            Sound(l', start) && HeldScopes(l', scopes) && NoBareRange(l'.table, scopes)
  {
    forall k | k in l.held && l.held[k].id in l.table ensures InScope(t, l.held[k]) {
      IssuedInScope(l, t, id, scope, scopes, k);
    }
    SoundIssued(l, t, id, scope, tipo, day, start);
    IssuedScopes(l, t, id, Top(l.table[id]) + 1, scope, tipo, day, scopes);
    RenamedBare(l.table, t, scope, scopes);
  }

  lemma SoundIssued(l: Ledger, t: Table, id: nat, scope: string, tipo: string, day: int, start: map<nat, int>)
    requires Sound(l, start) && UniqueScopes(t)
    requires id in l.table && t.Keys == l.table.Keys && l.table[id].tipo == tipo
    requires t[id] == l.table[id].(tenant := scope, actual := Top(l.table[id]) + 1)
    requires forall j :: j in t && j != id ==> t[j] == l.table[j]
    requires forall k :: k in l.held && l.held[k].id in l.table ==> InScope(t, l.held[k])
    requires Top(l.table[id]) < l.table[id].hasta
    ensures Sound(Issued(l, t, id, Top(l.table[id]) + 1, scope, tipo, day), start)
  {
    IssuedExact(l, t, id, scope, tipo, day, start);
    IssuedHeld(l, t, id, scope, tipo, day, start);
    IssuedApart(l, t, id, scope, tipo, day, start);
    SamePrefixes(l.table, t);
  }

  /** The release reaches the row it was drawn from. */
  predicate Taken(l: Ledger, k: nat)
    requires k in l.held && l.held[k].id in l.table
  {
    l.table[l.held[k].id].tenant == l.held[k].scope && l.table[l.held[k].id].actual == l.held[k].number
  }

  lemma EndsWithSuffix(stem: string, suffix: string)
    ensures EndsWithNoCase(stem + suffix, suffix)
  {
    assert (stem + suffix)[|stem|..] == suffix;
  }

  lemma AliasOfAlias(scope: string)
    ensures Alias(scope).Some? ==> Alias(Alias(scope).value).Some?
  {
    forall n | 0 <= n <= |scope|
      ensures EndsWithNoCase(scope[..n] + ":TestEcf", ":TestEcf")
      ensures EndsWithNoCase(scope[..n] + ":PreCertificacion", ":PreCertificacion")
      ensures EndsWithNoCase(scope[..n] + ":CertEcf", ":CertEcf")
      ensures EndsWithNoCase(scope[..n] + ":Certificacion", ":Certificacion")
    {
      EndsWithSuffix(scope[..n], ":TestEcf");
      EndsWithSuffix(scope[..n], ":PreCertificacion");
      EndsWithSuffix(scope[..n], ":CertEcf");
      EndsWithSuffix(scope[..n], ":Certificacion");
    }
  }

  lemma RenamedIsNotBare(l: Ledger, k: nat)
    requires k in l.held && l.held[k].id in l.table && InScope(l.table, l.held[k])
    requires l.table[l.held[k].id].tenant != l.held[k].scope
    ensures Bare(l.held[k].scope) != Some(l.table[l.held[k].id].tenant)
  {
    hide Alias, Bare;
    AliasOfAlias(l.held[k].scope);
    AliasIsNotBare(l.table[l.held[k].id].tenant, l.held[k].scope);
  }

  lemma ReleaseShape(l: Ledger, k: nat, start: map<nat, int>)
    requires Sound(l, start) && k in l.held
    ensures var h := l.held[k];
            && |Encf(h)| > 3 && Stoll(Encf(h)[3..]) == Some(h.number)
            && var t := Release(l.table, h.scope, h.tipo, Encf(h));
            && t.Keys == l.table.Keys
            && (forall id :: id in t ==> t[id] == if Hit(l.table[id], h.scope, h.tipo, h.number)
                                                  then l.table[id].(actual := l.table[id].actual - 1) else l.table[id])
            && h.id in t && (Hit(l.table[h.id], h.scope, h.tipo, h.number) <==> Taken(l, k))
  {
    assert HeldOk(l, k);
    var h := l.held[k];
    if l.table[h.id].tenant != h.scope {
      RenamedIsNotBare(l, k);
    }
    PaddedRoundTrip(h.number);
    assert Encf(h)[3..] == Padded(h.number);
  }

  /** Without a bare-tenant range, a release reaches no row but the one it was drawn from. */
  lemma GiveBackOthers(l: Ledger, k: nat, connected: bool, start: map<nat, int>, scopes: set<string>)
    requires Sound(l, start) && HeldScopes(l, scopes) && NoBareRange(l.table, scopes) && k in l.held
    ensures var l' := Act(l, GiveBack(k, connected));
            && l'.table.Keys == l.table.Keys
            && (forall id :: id in l.table && id != l.held[k].id ==> l'.table[id] == l.table[id])
  {
    assert HeldOk(l, k);
    ReleaseShape(l, k, start);
  }

  /** The ledger after one release that reached its own row only. */
  function Returned(l: Ledger, k: nat, t: Table, taken: bool): Ledger
    requires k in l.held && l.held[k].id in l.out
  {
    var h := l.held[k];
    Ledger(t, if taken then l.out[h.id := l.out[h.id] - {h.number}] else l.out, l.held - {k}, l.serial)
  }

  lemma ReturnedExact(l: Ledger, k: nat, t: Table, taken: bool, start: map<nat, int>)
    requires Exact(l, start) && AllHeldOk(l) && Apart(l) && k in l.held && t.Keys == l.table.Keys
    requires HeldOk(l, k)
    requires forall j :: j in t && j != l.held[k].id ==> t[j] == l.table[j]
    requires var r := l.table[l.held[k].id];
             t[l.held[k].id] == if taken then r.(actual := r.actual - 1) else r
    requires taken ==> l.table[l.held[k].id].actual == l.held[k].number
    ensures Exact(Returned(l, k, t, taken), start)
  {
    var h := l.held[k];
    assert RowExact(l.table[h.id], l.out[h.id], start[h.id]);
    if taken {
      RowReturned(l.table[h.id], l.out[h.id], start[h.id]);
    }
  }

  lemma ReturnedHeld(l: Ledger, k: nat, t: Table, taken: bool, start: map<nat, int>, j: nat)
    requires Exact(l, start) && AllHeldOk(l) && Apart(l) && k in l.held && t.Keys == l.table.Keys
    requires HeldOk(l, k)
    requires forall j :: j in t && j != l.held[k].id ==> t[j] == l.table[j]
    requires var r := l.table[l.held[k].id];
             t[l.held[k].id] == if taken then r.(actual := r.actual - 1) else r
    requires taken ==> l.table[l.held[k].id].actual == l.held[k].number
    requires j in l.held && j != k
    ensures HeldOk(Returned(l, k, t, taken), j)
  {
    assert HeldOk(l, j);
  }

  lemma SoundReturned(l: Ledger, k: nat, t: Table, taken: bool, start: map<nat, int>)
    requires Sound(l, start) && k in l.held && t.Keys == l.table.Keys && UniqueScopes(t)
    requires HeldOk(l, k)
    requires forall j :: j in t && j != l.held[k].id ==> t[j] == l.table[j]
    requires var r := l.table[l.held[k].id];
             t[l.held[k].id] == if taken then r.(actual := r.actual - 1) else r
    requires taken ==> l.table[l.held[k].id].actual == l.held[k].number
    ensures Sound(Returned(l, k, t, taken), start)
  {
    hide ShortPrefixes, UniqueScopes, RowExact, Backs, InScope;
    var l' := Returned(l, k, t, taken);
    ReturnedExact(l, k, t, taken, start);
    SamePrefixes(l.table, t);
    assert Apart(l');
    forall j | j in l'.held ensures j < l'.serial && HeldOk(l', j) {
      ReturnedHeld(l, k, t, taken, start, j);
    }
  }

  lemma ActGiveBack(l: Ledger, k: nat, connected: bool, start: map<nat, int>)
    requires Sound(l, start) && k in l.held
    ensures var h := l.held[k];
            && h.id in l.table && h.id in l.out
            && Act(l, GiveBack(k, connected)) ==
               Returned(l, k, if connected then Release(l.table, h.scope, h.tipo, Encf(h)) else l.table,
                        connected && Taken(l, k))
  {
    assert HeldOk(l, k);
    ReleaseShape(l, k, start);
  }

  lemma SoundGiveBack(l: Ledger, k: nat, connected: bool, start: map<nat, int>, scopes: set<string>)
    requires Sound(l, start) && HeldScopes(l, scopes) && NoBareRange(l.table, scopes)
    ensures var l' := Act(l, GiveBack(k, connected));
            Sound(l', start) && HeldScopes(l', scopes) && NoBareRange(l'.table, scopes)
  {
    if k in l.held {
      var h := l.held[k];
      ReleaseShape(l, k, start);
      ActGiveBack(l, k, connected, start);
      GiveBackOthers(l, k, connected, start, scopes);
      var t := if connected then Release(l.table, h.scope, h.tipo, Encf(h)) else l.table;
      GiveBackUnique(l.table, t);
      SoundReturned(l, k, t, connected && Taken(l, k), start);
      RenamedBare(l.table, t, h.scope, scopes);
    }
  }

  lemma GiveBackUnique(t: Table, t': Table)
    requires UniqueScopes(t) && t'.Keys == t.Keys
    requires forall id :: id in t ==> t'[id].tenant == t[id].tenant && t'[id].tipo == t[id].tipo
    ensures UniqueScopes(t')
  {
  }

  lemma {:induction false} SoundAll(l: Ledger, s: seq<Action>, start: map<nat, int>, scopes: set<string>)
    requires Sound(l, start) && HeldScopes(l, scopes) && SpelledScopes(scopes) && NoBareRange(l.table, scopes)
    requires forall a :: a in s ==> UsesOnly(a, scopes)
    ensures Sound(ActAll(l, s), start)
    decreases |s|
  {
    if s != [] {
      match s[0] {
        case TryDraw(_, _, _) => SoundDraw(l, s[0], start, scopes);
        case GiveBack(k, connected) => SoundGiveBack(l, k, connected, start, scopes);
      }
      SoundAll(Act(l, s[0]), s[1..], start, scopes);
    }
  }

  /** Any interleaving: outstanding numbers form one interval inside the range, and no two holders share one. */
  lemma AllocatorIsExact(l: Ledger, s: seq<Action>, start: map<nat, int>, scopes: set<string>)
    requires Fresh(l, start) && SpelledScopes(scopes) && NoBareRange(l.table, scopes)
    requires forall a :: a in s ==> UsesOnly(a, scopes)
    ensures Exact(ActAll(l, s), start)
    ensures var e := ActAll(l, s);
            && (forall id :: id in e.table ==>
                  forall n :: n in e.out[id] ==> e.table[id].desde <= n <= e.table[id].hasta)
            && (forall j, k :: j in e.held && k in e.held && j != k && e.held[j].id == e.held[k].id ==>
                  e.held[j].number != e.held[k].number && Encf(e.held[j]) != Encf(e.held[k]))
  {
    SoundAll(l, s, start, scopes);
    var e := ActAll(l, s);
    forall j, k | j in e.held && k in e.held && j != k && e.held[j].id == e.held[k].id
      ensures Encf(e.held[j]) != Encf(e.held[k])
    {
      assert HeldOk(e, j) && HeldOk(e, k);
      if Encf(e.held[j]) == Encf(e.held[k]) {
        FormatInjective(e.table[e.held[j].id].prefix, e.held[j].number, e.held[k].number);
      }
    }
  }

  /**
   The freshness of draws: after any interleaving, the text that a draw yields is that of no number
   outstanding, but for one of another range that was given the same prefix.
   */
  lemma DrawnTextIsNew(l: Ledger, s: seq<Action>, start: map<nat, int>, scopes: set<string>,
                       scope: string, tipo: string, today: int)
    requires Fresh(l, start) && SpelledScopes(scopes) && NoBareRange(l.table, scopes)
    requires forall a :: a in s ==> UsesOnly(a, scopes)
    requires Draw(ActAll(l, s).table, scope, tipo, today).Ok?
    ensures var e := ActAll(l, s);
            var (t, id) := Draw(e.table, scope, tipo, today).value;
            && e.out.Keys == e.table.Keys == t.Keys && id in t
            && t[id].actual >= 0 && t[id].actual !in e.out[id]
            && forall j, n: nat :: j in e.table && n in e.out[j]
                                   && Format(e.table[j].prefix, n) == Format(t[id].prefix, t[id].actual) ==>
                                     j != id && e.table[j].prefix == t[id].prefix
  {
    hide Draw, ActAll, Padded;
    SoundAll(l, s, start, scopes);
    var e := ActAll(l, s);
    DrawShape(e.table, scope, tipo, today);
    var (t, id) := Draw(e.table, scope, tipo, today).value;
    assert RowExact(e.table[id], e.out[id], start[id]);
    RowIssued(e.table[id], e.out[id], start[id], scope);
    forall j, n: nat | j in e.table && n in e.out[j]
                       && Format(e.table[j].prefix, n) == Format(t[id].prefix, t[id].actual)
      ensures j != id && e.table[j].prefix == t[id].prefix
    {
      var text := Format(e.table[j].prefix, n);
      assert text[..3] == e.table[j].prefix && text[..3] == t[id].prefix;
      if j == id {
        FormatInjective(t[id].prefix, n, t[id].actual);
      }
    }
  }

  // ---- Ranges in force ----------------------------------------------------------------------

  /** The number came from a row that was in use, of the asked type, and not expired on the day of the draw. */
  predicate InForce(t: Table, h: Ticket) {
    && h.id in t && t[h.id].active && t[h.id].tipo == h.tipo
    && t[h.id].expires.Some? && t[h.id].expires.value >= h.day
  }

  predicate AllInForce(l: Ledger) {
    forall k :: k in l.held ==> InForce(l.table, l.held[k])
  }

  predicate AskedFor(s: seq<Action>, h: Ticket) {
    TryDraw(h.scope, h.tipo, h.day) in s
  }

  lemma InForceStep(l: Ledger, a: Action)
    requires AllInForce(l)
    ensures AllInForce(Act(l, a))
    ensures forall k :: k in Act(l, a).held && !(k in l.held && l.held[k] == Act(l, a).held[k]) ==>
              AskedFor([a], Act(l, a).held[k])
  {
    hide Alias, Bare, Stoll, Top, Encf;
  }

  /**
   After any interleaving, every number in a holder's hands came from a range in force on the day of
   its draw, and somebody asked for it then.
   */
  lemma {:induction false} DrawnInForce(l: Ledger, s: seq<Action>)
    requires AllInForce(l)
    ensures AllInForce(ActAll(l, s))
    ensures forall k :: k in ActAll(l, s).held ==>
              AskedFor(s, ActAll(l, s).held[k]) || (k in l.held && l.held[k] == ActAll(l, s).held[k])
    decreases |s|
  {
    hide Act;
    if s != [] {
      InForceStep(l, s[0]);
      DrawnInForce(Act(l, s[0]), s[1..]);
    }
  }

  // ---- When a release is not exact --------------------------------------------------------

  /** Another range, of the bare tenant, stands at the very number that is given back. */
  predicate BareAtSameNumber(t: Table, h: Ticket) {
    exists id :: id in t && id != h.id && Bare(h.scope) == Some(t[id].tenant) && t[id].tipo == h.tipo
                 && t[id].actual == h.number && t[id].desde <= h.number
  }

  lemma OwnRowReturned(l: Ledger, k: nat, start: map<nat, int>)
    requires Sound(l, start) && k in l.held && HeldOk(l, k) && l.table[l.held[k].id].actual == l.held[k].number
    ensures var h := l.held[k];
            RowExact(l.table[h.id].(actual := l.table[h.id].actual - 1), l.out[h.id] - {h.number}, start[h.id])
  {
    hide UniqueScopes, ShortPrefixes, AllHeldOk, Apart;
    var h := l.held[k];
    assert RowExact(l.table[h.id], l.out[h.id], start[h.id]);
    RowReturned(l.table[h.id], l.out[h.id], start[h.id]);
  }

  /** Another row that a release hits below its start has nothing out, and keeps nothing out. */
  lemma OtherRowSpared(l: Ledger, k: nat, start: map<nat, int>, id: nat)
    requires Sound(l, start) && k in l.held && HeldOk(l, k) && !BareAtSameNumber(l.table, l.held[k])
    requires id in l.table && id != l.held[k].id && Hit(l.table[id], l.held[k].scope, l.held[k].tipo, l.held[k].number)
    ensures RowExact(l.table[id].(actual := l.table[id].actual - 1), l.out[id], start[id])
  {
    hide ShortPrefixes, AllHeldOk, Apart, IsInterval;
    assert RowExact(l.table[id], l.out[id], start[id]);
    var h := l.held[k];
    assert InScope(l.table, h) && l.table[h.id].tipo == h.tipo;
    assert Bare(h.scope) == Some(l.table[id].tenant);
    assert l.table[id].desde > h.number;
  }

  lemma ReleaseIsExact(l: Ledger, k: nat, start: map<nat, int>)
    requires Sound(l, start) && k in l.held && !BareAtSameNumber(l.table, l.held[k])
    ensures Exact(Act(l, GiveBack(k, true)), start)
  {
    hide Release, Encf, UniqueScopes, ShortPrefixes, RowExact, Act, Apart, BareAtSameNumber, Bare;
    var h := l.held[k];
    assert HeldOk(l, k);
    ReleaseShape(l, k, start);
    ActGiveBack(l, k, true, start);
    var t := Release(l.table, h.scope, h.tipo, Encf(h));
    var l' := Act(l, GiveBack(k, true));
    forall id | id in t ensures RowExact(t[id], l'.out[id], start[id]) {
      assert RowExact(l.table[id], l.out[id], start[id]);
      if id == h.id {
        if Taken(l, k) {
          OwnRowReturned(l, k, start);
        }
      } else if Hit(l.table[id], h.scope, h.tipo, h.number) {
        OtherRowSpared(l, k, start, id);
      }
    }
  }

  lemma ReleaseIsNotExact(l: Ledger, k: nat, start: map<nat, int>, id: nat)
    requires Sound(l, start) && k in l.held
    requires id in l.table && id != l.held[k].id && l.table[id].desde <= l.held[k].number
    requires Hit(l.table[id], l.held[k].scope, l.held[k].tipo, l.held[k].number)
    ensures !Exact(Act(l, GiveBack(k, true)), start)
  {
    hide Release, Encf, UniqueScopes, ShortPrefixes, IsInterval, Act;
    ReleaseShape(l, k, start);
    ActGiveBack(l, k, true, start);
    assert RowExact(l.table[id], l.out[id], start[id]);
    RowTakenByMistake(l.table[id], l.out[id], start[id]);
  }

  /** A release keeps every row's interval exactly when no started bare-tenant range stands at that number. */
  lemma ReleaseIsExactIff(l: Ledger, k: nat, start: map<nat, int>)
    requires Sound(l, start) && k in l.held
    ensures Exact(Act(l, GiveBack(k, true)), start) <==> !BareAtSameNumber(l.table, l.held[k])
  {
    var h := l.held[k];
    if BareAtSameNumber(l.table, h) {
      var id :| id in l.table && id != h.id && Bare(h.scope) == Some(l.table[id].tenant) && l.table[id].tipo == h.tipo
                && l.table[id].actual == h.number && l.table[id].desde <= h.number;
      ReleaseIsNotExact(l, k, start, id);
    } else {
      ReleaseIsExact(l, k, start);
    }
  }

  lemma RowTakenByMistake(r: Range, out: set<int>, low: int)
    requires RowExact(r, out, low) && r.desde <= r.actual
    ensures !RowExact(r.(actual := r.actual - 1), out, low)
  {
    if low < r.actual {
      assert r.actual in out;
    }
  }

  lemma PlainDraw(l: Ledger, id: nat, scope: string, tipo: string)
    requires UniqueScopes(l.table) && l.out.Keys == l.table.Keys && id in l.table
    requires Serves(l.table[id], scope, tipo) && l.table[id].expires == Some(0) && Top(l.table[id]) < l.table[id].hasta
    requires Top(l.table[id]) + 1 >= 0
    ensures Act(l, TryDraw(scope, tipo, 0)) ==
            Issued(l, l.table[id := l.table[id].(actual := Top(l.table[id]) + 1)], id,
                   Top(l.table[id]) + 1, scope, tipo, 0)
  {
    assert Find(l.table, scope, tipo) == Some(id);
  }

  lemma FourActs(l: Ledger, a: Action, b: Action, c: Action, d: Action)
    ensures ActAll(l, [a, b, c, d]) == Act(Act(Act(Act(l, a), b), c), d)
  {
    assert [a, b, c, d][1..] == [b, c, d];
    assert [b, c, d][1..] == [c, d];
    assert [c, d][1..] == [d];
    assert [d][1..] == [];
    assert ActAll(Act(Act(Act(l, a), b), c), [d]) == Act(Act(Act(Act(l, a), b), c), d);
    assert ActAll(Act(Act(l, a), b), [c, d]) == ActAll(Act(Act(Act(l, a), b), c), [d]);
    assert ActAll(Act(l, a), [b, c, d]) == ActAll(Act(Act(l, a), b), [c, d]);
  }

  function NewRange(tenant: string, tipo: string, prefix: string): Range {
    Range(tenant, tipo, prefix, 1, 9, 0, Some(0), true)
  }

  /** Two fresh ranges, one for the bare tenant and one for its scope. */
  function TwoRanges(tenant: string, scope: string, tipo: string, prefix: string): Ledger {
    Ledger(map[0 := NewRange(tenant, tipo, prefix), 1 := NewRange(scope, tipo, prefix)],
           map[0 := {}, 1 := {}], map[], 0)
  }

  lemma TwoRangesFresh(tenant: string, scope: string, tipo: string, prefix: string)
    requires tenant != scope && |prefix| == 3
    ensures Fresh(TwoRanges(tenant, scope, tipo, prefix), map[0 := 0, 1 := 0])
  {
  }

  /** The tables of a ledger, whatever its outstanding numbers. */
  predicate Holds(l: Ledger, t: Table, held: map<nat, Ticket>, serial: nat) {
    l.table == t && l.held == held && l.serial == serial && l.out.Keys == t.Keys
  }

  lemma OneDrawn(l: Ledger, tenant: string, scope: string, tipo: string, prefix: string)
    requires tenant != scope && Holds(l, TwoRanges(tenant, scope, tipo, prefix).table, map[], 0)
    ensures Holds(Act(l, TryDraw(tenant, tipo, 0)),
                  map[0 := NewRange(tenant, tipo, prefix).(actual := 1), 1 := NewRange(scope, tipo, prefix)],
                  map[0 := Ticket(0, 1, tenant, tipo, prefix, 0)], 1)
  {
    PlainDraw(l, 0, tenant, tipo);
  }

  lemma BothDrawn(l: Ledger, tenant: string, scope: string, tipo: string, prefix: string)
    requires tenant != scope
    requires Holds(l, map[0 := NewRange(tenant, tipo, prefix).(actual := 1), 1 := NewRange(scope, tipo, prefix)],
                   map[0 := Ticket(0, 1, tenant, tipo, prefix, 0)], 1)
    ensures Holds(Act(l, TryDraw(scope, tipo, 0)),
                  map[0 := NewRange(tenant, tipo, prefix).(actual := 1),
                      1 := NewRange(scope, tipo, prefix).(actual := 1)],
                  map[0 := Ticket(0, 1, tenant, tipo, prefix, 0), 1 := Ticket(1, 1, scope, tipo, prefix, 0)], 2)
  {
    PlainDraw(l, 1, scope, tipo);
  }

  lemma BothDecremented(l: Ledger, tenant: string, scope: string, tipo: string, prefix: string)
    requires Bare(scope) == Some(tenant) && |prefix| == 3
    requires Holds(l, map[0 := NewRange(tenant, tipo, prefix).(actual := 1),
                          1 := NewRange(scope, tipo, prefix).(actual := 1)],
                   map[0 := Ticket(0, 1, tenant, tipo, prefix, 0), 1 := Ticket(1, 1, scope, tipo, prefix, 0)], 2)
    ensures Holds(Act(l, GiveBack(1, true)), TwoRanges(tenant, scope, tipo, prefix).table,
                  map[0 := Ticket(0, 1, tenant, tipo, prefix, 0)], 2)
  {
    PaddedRoundTrip(1);
    assert Encf(l.held[1])[3..] == Padded(1);
  }

  lemma DrawnAgain(l: Ledger, tenant: string, scope: string, tipo: string, prefix: string)
    requires tenant != scope
    requires Holds(l, TwoRanges(tenant, scope, tipo, prefix).table, map[0 := Ticket(0, 1, tenant, tipo, prefix, 0)], 2)
    ensures !Apart(Act(l, TryDraw(tenant, tipo, 0)))
  {
    PlainDraw(l, 0, tenant, tipo);
    var l' := Act(l, TryDraw(tenant, tipo, 0));
    assert l'.held[0].id == l'.held[2].id && l'.held[0].number == l'.held[2].number;
  }

  /** Give the bare tenant of any scope a range of its own, and two holders end up with one number. */
  lemma BareRangeIssuesTwice(tenant: string, scope: string, tipo: string, prefix: string) returns (s: seq<Action>)
    requires BareTenant(scope, tenant) && |prefix| == 3
    ensures Fresh(TwoRanges(tenant, scope, tipo, prefix), map[0 := 0, 1 := 0])
    ensures forall a :: a in s ==> UsesOnly(a, {tenant, scope})
    ensures !Apart(ActAll(TwoRanges(tenant, scope, tipo, prefix), s))
  {
    BareIffTenant(scope, tenant);
    assert |tenant| < |scope|;
    var l := TwoRanges(tenant, scope, tipo, prefix);
    TwoRangesFresh(tenant, scope, tipo, prefix);
    var first, second, back := TryDraw(tenant, tipo, 0), TryDraw(scope, tipo, 0), GiveBack(1, true);
    s := [first, second, back, first];
    FourActs(l, first, second, back, first);
    OneDrawn(l, tenant, scope, tipo, prefix);
    BothDrawn(Act(l, first), tenant, scope, tipo, prefix);
    BothDecremented(Act(Act(l, first), second), tenant, scope, tipo, prefix);
    DrawnAgain(Act(Act(Act(l, first), second), back), tenant, scope, tipo, prefix);
  }
}
