/** EcfSequenceManager: drawing the next fiscal number of a range, and giving an unused one back. */
module EcfSequences {
  import opened Wrappers
  import opened EncfText
  import Estado

  datatype Range = Range(
    tenant: string, tipo: string, prefix: string,
    desde: nat, hasta: nat, actual: int,
    expires: Option<int>, active: bool)

  /** The table ecf_sequences by row id. */
  type Table = map<nat, Range>

  datatype Error = NoRange | NoExpiry | Expired | Exhausted | UniqueViolation

  /** The unique index uq_ecf_sequences_tenant_tipo. */
  predicate UniqueScopes(t: Table) {
    forall i, j :: i in t && j in t && i != j ==> t[i].tenant != t[j].tenant || t[i].tipo != t[j].tipo
  }

  predicate EndsWithNoCase(s: string, suffix: string) {
    |s| >= |suffix| && Estado.Lower(s[|s| - |suffix|..]) == Estado.Lower(suffix)
  }

  function Swap(s: string, suffix: string, other: string): string
    requires EndsWithNoCase(s, suffix)
  {
    s[..|s| - |suffix|] + other
  }

  /** The other spelling of a test or certification scope. */
  function Alias(scope: string): Option<string> {
    if EndsWithNoCase(scope, ":PreCertificacion") then Some(Swap(scope, ":PreCertificacion", ":TestEcf"))
    else if EndsWithNoCase(scope, ":TestEcf") then Some(Swap(scope, ":TestEcf", ":PreCertificacion"))
    else if EndsWithNoCase(scope, ":Certificacion") then Some(Swap(scope, ":Certificacion", ":CertEcf"))
    else if EndsWithNoCase(scope, ":CertEcf") then Some(Swap(scope, ":CertEcf", ":Certificacion"))
    else None
  }

  function FindColon(s: string): (p: nat)
    ensures p <= |s|
    ensures p < |s| ==> s[p] == ':'
    ensures forall i :: 0 <= i < p ==> s[i] != ':'
  {
    if s == "" || s[0] == ':' then 0 else 1 + FindColon(s[1..])
  }

  /** The tenant in front of the first colon, when there is one. */
  function Bare(scope: string): Option<string> {
    if 0 < FindColon(scope) < |scope| then Some(scope[..FindColon(scope)]) else None
  }

  predicate Serves(r: Range, scope: string, tipo: string) {
    r.tenant == scope && r.tipo == tipo && r.active
  }

  ghost function Find(t: Table, scope: string, tipo: string): (id: Option<nat>)
    ensures id.Some? ==> id.value in t && Serves(t[id.value], scope, tipo)
    ensures id.None? ==> forall i :: i in t ==> !Serves(t[i], scope, tipo)
  {
    if i :| i in t && Serves(t[i], scope, tipo) then Some(i) else None
  }

  /** The row to draw from, possibly renamed to the requested spelling. */
  ghost function Resolve(t: Table, scope: string, tipo: string): Result<(Table, nat), Error> {
    match Find(t, scope, tipo)
    case Some(id) => Ok((t, id))
    case None =>
      if Alias(scope).None? then Err(NoRange)
      else match Find(t, Alias(scope).value, tipo)
        case None => Err(NoRange)
        case Some(id) =>
          if exists j :: j in t && j != id && t[j].tenant == scope && t[j].tipo == tipo then Err(UniqueViolation)
          else Ok((t[id := t[id].(tenant := scope)], id))
  }

  /** The highest number of the range that counts as used. */
  function Top(r: Range): int {
    if r.actual < r.desde - 1 then r.desde - 1 else r.actual
  }

  ghost function Draw(t: Table, scope: string, tipo: string, today: int): Result<(Table, nat), Error> {
    match Resolve(t, scope, tipo)
    case Err(e) => Err(e)
    case Ok(found) =>
      var r := found.0[found.1];
      if r.expires.None? then Err(NoExpiry)
      else if r.expires.value < today then Err(Expired)
      else if Top(r) >= r.hasta then Err(Exhausted)
      else Ok((found.0[found.1 := r.(actual := Top(r) + 1)], found.1))
  }

  predicate Hit(r: Range, scope: string, tipo: string, n: int) {
    (r.tenant == scope || Bare(scope) == Some(r.tenant)) && r.tipo == tipo && r.actual == n
  }

  function Release(t: Table, scope: string, tipo: string, encf: string): Table {
    if |encf| <= 3 || Stoll(encf[3..]).None? then t
    else map id | id in t :: if Hit(t[id], scope, tipo, Stoll(encf[3..]).value)
      then t[id].(actual := t[id].actual - 1) else t[id]
  }

  // ---- What a draw asks of the table ----------------------------------------------------------

  predicate Respells(scope: string, other: string, from: string, to: string) {
    && |scope| >= |from| && Estado.Lower(scope[|scope| - |from|..]) == Estado.Lower(from)
    && other == scope[..|scope| - |from|] + to
  }

  /** The two spellings of the test environment, and of certification. */
  predicate OtherSpelling(scope: string, other: string) {
    || Respells(scope, other, ":PreCertificacion", ":TestEcf")
    || Respells(scope, other, ":TestEcf", ":PreCertificacion")
    || Respells(scope, other, ":Certificacion", ":CertEcf") || Respells(scope, other, ":CertEcf", ":Certificacion")
  }

  lemma BothAgree(scope: string, a: string, b: string)
    requires 0 < |a| <= |b| && EndsWithNoCase(scope, a) && EndsWithNoCase(scope, b)
    ensures Estado.ToLower(a[0]) == Estado.ToLower(b[|b| - |a|])
  {
    var x, y := scope[|scope| - |a|..], scope[|scope| - |b|..];
    assert Estado.Lower(x)[0] == Estado.Lower(a)[0] && Estado.Lower(y)[|b| - |a|] == Estado.Lower(b)[|b| - |a|];
    assert x[0] == y[|b| - |a|];
  }

  lemma NotBoth(scope: string, a: string, b: string)
    requires 0 < |a| <= |b| && (if |a| == |b| then Estado.Lower(a) != Estado.Lower(b)
                                else Estado.ToLower(a[0]) != Estado.ToLower(b[|b| - |a|]))
    ensures !(EndsWithNoCase(scope, a) && EndsWithNoCase(scope, b))
  {
    if EndsWithNoCase(scope, a) && EndsWithNoCase(scope, b) {
      BothAgree(scope, a, b);
    }
  }

  lemma OneSuffix(scope: string)
    ensures EndsWithNoCase(scope, ":CertEcf") ==>
              !EndsWithNoCase(scope, ":TestEcf") && !EndsWithNoCase(scope, ":Certificacion")
              && !EndsWithNoCase(scope, ":PreCertificacion")
    ensures EndsWithNoCase(scope, ":TestEcf") ==>
              !EndsWithNoCase(scope, ":Certificacion") && !EndsWithNoCase(scope, ":PreCertificacion")
    ensures EndsWithNoCase(scope, ":Certificacion") ==> !EndsWithNoCase(scope, ":PreCertificacion")
  {
    assert Estado.Lower(":CertEcf")[1] == 'c' && Estado.Lower(":TestEcf")[1] == 't';
    hide EndsWithNoCase;
    NotBoth(scope, ":CertEcf", ":TestEcf");
    NotBoth(scope, ":CertEcf", ":Certificacion");
    NotBoth(scope, ":CertEcf", ":PreCertificacion");
    NotBoth(scope, ":TestEcf", ":Certificacion");
    NotBoth(scope, ":TestEcf", ":PreCertificacion");
    NotBoth(scope, ":Certificacion", ":PreCertificacion");
  }

  lemma AliasIsOtherSpelling(scope: string, other: string)
    ensures Alias(scope) == Some(other) <==> OtherSpelling(scope, other)
  {
    OneSuffix(scope);
    hide Estado.Lower;
  }

  /** The row can be drawn from: in use, of the type, in force, not used up, and the scope's own or renamable. */
  predicate Drawable(t: Table, id: nat, scope: string, tipo: string, today: int) {
    && id in t
    && t[id].tipo == tipo && t[id].active
    && t[id].expires.Some? && t[id].expires.value >= today
    && t[id].desde <= t[id].hasta && t[id].actual < t[id].hasta
    && (t[id].tenant == scope
        || (OtherSpelling(scope, t[id].tenant) && forall j :: j in t ==> t[j].tenant != scope || t[j].tipo != tipo))
  }

  function NextNumber(r: Range): int {
    if r.actual + 1 < r.desde then r.desde else r.actual + 1
  }

  /** The row that is resolved is the only one that can be drawable. */
  lemma DrawableIsResolved(t: Table, id: nat, scope: string, tipo: string, today: int)
    requires UniqueScopes(t) && Drawable(t, id, scope, tipo, today)
    ensures Resolve(t, scope, tipo) == Ok((t[id := t[id].(tenant := scope)], id))
  {
    hide Alias, OtherSpelling;
    AliasIsOtherSpelling(scope, t[id].tenant);
    if t[id].tenant == scope {
      assert Serves(t[id], scope, tipo) && t[id := t[id].(tenant := scope)] == t;
    } else {
      assert Serves(t[id], Alias(scope).value, tipo);
    }
  }

  lemma ResolvedMayBeDrawable(t: Table, scope: string, tipo: string, today: int)
    requires UniqueScopes(t) && Draw(t, scope, tipo, today).Ok?
    ensures Drawable(t, Draw(t, scope, tipo, today).value.1, scope, tipo, today)
  {
    hide Alias, OtherSpelling;
    var id := Draw(t, scope, tipo, today).value.1;
    AliasIsOtherSpelling(scope, t[id].tenant);
    assert Find(t, scope, tipo).None? ==> !Serves(t[id], scope, tipo);
  }

  /** Exactly when a draw yields a number, from which row, and which one. */
  lemma DrawSucceedsIff(t: Table, scope: string, tipo: string, today: int)
    requires UniqueScopes(t)
    ensures Draw(t, scope, tipo, today).Ok? <==> exists id :: Drawable(t, id, scope, tipo, today)
    ensures forall id :: Drawable(t, id, scope, tipo, today) ==>
              Draw(t, scope, tipo, today) == Ok((t[id := t[id].(tenant := scope, actual := NextNumber(t[id]))], id))
  {
    hide Resolve, OtherSpelling;
    forall id | Drawable(t, id, scope, tipo, today)
      ensures Draw(t, scope, tipo, today) == Ok((t[id := t[id].(tenant := scope, actual := NextNumber(t[id]))], id))
    {
      DrawableIsResolved(t, id, scope, tipo, today);
      var work := t[id := t[id].(tenant := scope)];
      assert work[id := work[id].(actual := NextNumber(t[id]))] ==
        t[id := t[id].(tenant := scope, actual := NextNumber(t[id]))];
    }
    if Draw(t, scope, tipo, today).Ok? {
      ResolvedMayBeDrawable(t, scope, tipo, today);
    }
  }

  /** The scope continues this tenant with its first colon. */
  predicate BareTenant(scope: string, tenant: string) {
    tenant != "" && ':' !in tenant && tenant + ":" <= scope
  }

  lemma BareIffTenant(scope: string, tenant: string)
    ensures Bare(scope) == Some(tenant) <==> BareTenant(scope, tenant)
  {
    var p := FindColon(scope);
    if BareTenant(scope, tenant) {
      var n := |tenant|;
      assert (tenant + ":")[n] == ':' && scope[n] == ':';
      assert forall i :: 0 <= i < n ==> scope[i] == (tenant + ":")[i] == tenant[i];
      assert p == n && scope[..p] == tenant;
    }
    if 0 < p < |scope| && scope[..p] == tenant {
      assert scope[..p + 1] == tenant + ":";
      assert forall i :: 0 <= i < p ==> tenant[i] == scope[i];
    }
  }

  /** Exactly which rows a release takes one off: those at the number, of the type, in the scope or its bare tenant. */
  lemma ReleaseHitsIff(t: Table, scope: string, tipo: string, prefix: string, n: nat, id: nat)
    requires id in t && |prefix| == 3
    ensures var t', r := Release(t, scope, tipo, Format(prefix, n)), t[id];
            && t'.Keys == t.Keys
            && t'[id] == if r.actual == n && r.tipo == tipo && (r.tenant == scope || BareTenant(scope, r.tenant))
                         then r.(actual := n - 1) else r
  {
    PaddedRoundTrip(n);
    BareIffTenant(scope, t[id].tenant);
    assert Format(prefix, n)[3..] == Padded(n);
    hide Padded, Stoll, Bare, BareTenant;
  }

  lemma DrawableIsNatural(t: Table, scope: string, tipo: string, today: int)
    ensures forall id :: Drawable(t, id, scope, tipo, today) ==> id in t && NextNumber(t[id]) >= 0
  {
    hide OtherSpelling;
  }

  class EcfSequenceManager {
    var table: Table

    constructor (table: Table)
      ensures this.table == table
    {
      this.table := table;
    }

    method Select(scope: string, tipo: string) returns (id: Option<nat>)
      requires UniqueScopes(table)
      ensures id == Find(table, scope, tipo)
    {
      var left := table.Keys;
      while left != {}
        invariant left <= table.Keys
        invariant forall i :: i in table && i !in left ==> !Serves(table[i], scope, tipo)
        decreases left
      {
        var i :| i in left;
        if Serves(table[i], scope, tipo) {
          return Some(i);
        }
        left := left - {i};
      }
      id := None;
    }

    /** The active row of the scope, or the row of its other spelling, renamed in the open transaction. */
    method ResolveRange(scope: string, tipo: string) returns (found: Result<(Table, nat), Error>)
      requires UniqueScopes(table)
      ensures found == Resolve(table, scope, tipo)
      ensures found.Ok? ==> found.value.1 in found.value.0 && UniqueScopes(found.value.0)
    {
      var id := Select(scope, tipo);
      if id.Some? {
        return Ok((table, id.value));
      }
      var alias := Alias(scope);
      if alias.None? {
        return Err(NoRange);
      }
      id := Select(alias.value, tipo);
      if id.None? {
        return Err(NoRange);
      }
      if exists j :: j in table && j != id.value && table[j].tenant == scope && table[j].tipo == tipo {
        return Err(UniqueViolation);
      }
      return Ok((table[id.value := table[id.value].(tenant := scope)], id.value));
    }

    /** Draws and commits, or throws and leaves the table as it was. */
    method GetNextEncf(scope: string, tipo: string, today: int) returns (encf: Result<string, Error>)
      requires UniqueScopes(table)
      modifies this
      ensures UniqueScopes(table)
      ensures match Draw(old(table), scope, tipo, today)
              case Ok(drawn) =>
                && table == drawn.0
                && encf == Ok(Format(table[drawn.1].prefix, table[drawn.1].actual))
                && table[drawn.1].desde <= table[drawn.1].actual <= table[drawn.1].hasta
              case Err(e) => table == old(table) && encf == Err(e)
      ensures encf.Ok? <==> exists id :: Drawable(old(table), id, scope, tipo, today)
      ensures forall id :: Drawable(old(table), id, scope, tipo, today) ==>
                var r := old(table)[id];
                && NextNumber(r) >= 0 && encf == Ok(Format(r.prefix, NextNumber(r)))
                && table == old(table)[id := r.(tenant := scope, actual := NextNumber(r))]
    {
      hide Drawable;
      DrawSucceedsIff(table, scope, tipo, today);
      DrawableIsNatural(table, scope, tipo, today);
      var found := ResolveRange(scope, tipo);
      if found.Err? {
        return Err(found.error);
      }
      var (work, id) := found.value;
      var seqRow := work[id];
      if seqRow.expires.None? {
        return Err(NoExpiry);
      }
      if seqRow.expires.value < today {
        return Err(Expired);
      }
      if seqRow.actual < seqRow.desde - 1 {
        seqRow := seqRow.(actual := seqRow.desde - 1);
      }
      if seqRow.actual >= seqRow.hasta {
        return Err(Exhausted);
      }
      seqRow := seqRow.(actual := seqRow.actual + 1);
      work := work[id := seqRow];
      table := work;
      encf := Ok(Format(seqRow.prefix, seqRow.actual));
    }

    /** Takes back a number that is still the last one of its row; a failure changes nothing. */
    method ReleaseUnusedEncf(scope: string, tipo: string, encf: string, connected: bool)
      modifies this
      ensures table == if connected then Release(old(table), scope, tipo, encf) else old(table)
    {
      if |encf| <= 3 || !connected {
        return;
      }
      var number := Stoll(encf[3..]);
      if number.None? {
        return;
      }
      var left := table.Keys;
      while left != {}
        invariant left <= table.Keys == old(table).Keys
        invariant forall i :: i in left ==> table[i] == old(table)[i]
        invariant forall i :: i in table && i !in left ==> table[i] == Release(old(table), scope, tipo, encf)[i]
        decreases left
      {
        var i :| i in left;
        if Hit(table[i], scope, tipo, number.value) {
          table := table[i := table[i].(actual := table[i].actual - 1)];
        }
        left := left - {i};
      }
    }
  }
}
