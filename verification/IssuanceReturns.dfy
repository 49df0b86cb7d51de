/**
 Numbers that a submission drew and could not store. They go back to the allocator, and a later draw
 may yield them again: here is exactly when that is sound.
 */
module IssuanceReturns {
  import opened Documents
  import opened Issuance
  import opened IssuancePlacement
  import opened IssuanceGuards
  import opened IssuanceFreshness
  import D = DbContext
  import R = Reconciler

  /** A step that belongs to another request, or to the background. */
  predicate Foreign(k: TxnKey, l: Label) {
    !(l.Advance? && l.key == k) && !(l.Crash? && l.key == k)
  }

  /** The submission's next step, or its death. */
  predicate OwnStep(k: TxnKey, l: Label) {
    (l.Advance? || l.Crash?) && l.key == k
  }

  /** Nothing but the private copy of the submission carries the eNCF. */
  ghost predicate OnlyCopy(m: Machine, k: TxnKey, encf: string, scope: TxnKey -> string) {
    && k in m.live && HasCopy(m.live[k]) && m.live[k].doc.encf == encf
    && !Borne(m, k, encf)
    && forall j :: j != k && scope(j) == scope(k) && j.amb == k.amb ==> !Used(m, j, encf)
  }

  /** A document with a drawn number that is on its way to the table for the first time. */
  predicate Unstored(p: Phase) {
    p.Inserting? || (p.Saving? && p.after.ThenSign?)
  }

  lemma {:induction false} AllFreshConcat(m: Machine, a: seq<Label>, b: seq<Label>, scope: TxnKey -> string)
    ensures AllFresh(m, a + b, scope) <==> AllFresh(m, a, scope) && AllFresh(Run(m, a), b, scope)
    decreases |a|
  {
    hide Draws, Fresh, Next;
    if a == [] {
      assert a + b == b;
    } else {
      assert (a + b)[1..] == a[1..] + b;
      AllFreshConcat(Next(m, a[0]), a[1..], b, scope);
    }
  }

  lemma DrawIsOnlyCopy(m: Machine, k: TxnKey, encf: string, scope: TxnKey -> string)
    requires Readers(m) && Draws(m, Advance(k, Number(encf))) && Fresh(m, k, encf, scope)
    ensures var m' := Next(m, Advance(k, Number(encf)));
            OnlyCopy(m', k, encf, scope) && Unstored(m'.live[k])
  {
    var m' := Next(m, Advance(k, Number(encf)));
    assert m' == Machine(m.rows, m.live[k := m'.live[k]], m.history, m.writers) by {
      assert m.history + [] == m.history;
    }
    assert scope(k) == scope(k) && !Used(m, k, encf);
    forall j | j != k && scope(j) == scope(k) && j.amb == k.amb ensures !Used(m', j, encf) {
      assert !Used(m, j, encf);
    }
  }

  /** Other requests do not come to carry it. */
  lemma BorneForeign(m: Machine, l: Label, k: TxnKey, encf: string)
    requires Readers(m) && Foreign(k, l) && Borne(Next(m, l), k, encf)
    ensures Borne(m, k, encf)
  {
    hide Readers, Continue, Refreshed, Queried, BatchEvents, R.Checked, R.IsDueBatch, D.ExecuteAll, D.Updates;
    if l.Begin? || l.Crash? || l.Advance? {
      BorneBeside(m, l, k, encf);
    } else {
      BorneReader(m, l, k, encf);
    }
  }

  lemma BorneBeside(m: Machine, l: Label, k: TxnKey, encf: string)
    requires Foreign(k, l) && (l.Begin? || l.Crash? || l.Advance?) && Borne(Next(m, l), k, encf)
    ensures Borne(m, k, encf)
  {
    hide Continue;
    var m' := Next(m, l);
    if l.Advance? && l.key in m.live {
      StepTells(m.rows, l.key, m.live[l.key], l.choice);
    }
    if i :| i in m'.writers && ReadWith(m'.writers[i], k, encf) {
      assert ReadWith(m.writers[i], k, encf);
    }
    if n :| Sent(k, n) in m'.history && n.encf == encf {
      assert Sent(k, n) in m.history;
    }
  }

  lemma CopyStays(m: Machine, k: TxnKey, l: Label)
    requires k in m.live && Foreign(k, l)
    ensures k in Next(m, l).live && Next(m, l).live[k] == m.live[k]
  {
    hide Continue, Refreshed, Queried, BatchEvents, R.Checked, R.IsDueBatch, D.ExecuteAll, D.Updates, D.Overwritten;
  }

  lemma OnlyCopyNext(m: Machine, l: Label, k: TxnKey, encf: string, scope: TxnKey -> string)
    requires Readers(m) && OnlyCopy(m, k, encf, scope) && Foreign(k, l)
    requires Draws(m, l) ==> Fresh(m, l.key, l.choice.encf, scope)
    ensures OnlyCopy(Next(m, l), k, encf, scope)
  {
    hide Borne, Readers, Next;
    CopyStays(m, k, l);
    if Borne(Next(m, l), k, encf) {
      BorneForeign(m, l, k, encf);
    }
    forall j | j != k && scope(j) == scope(k) && j.amb == k.amb ensures !Used(Next(m, l), j, encf) {
      if Used(Next(m, l), j, encf) {
        UsedNext(m, l, j, encf);
      }
    }
  }

  lemma {:induction false} OnlyCopyRun(m: Machine, ls: seq<Label>, k: TxnKey, encf: string, scope: TxnKey -> string)
    requires Readers(m) && OnlyCopy(m, k, encf, scope) && AllFresh(m, ls, scope)
    requires forall l :: l in ls ==> Foreign(k, l)
    ensures OnlyCopy(Run(m, ls), k, encf, scope)
    decreases |ls|
  {
    hide Readers, OnlyCopy, Next, Draws, Fresh, Foreign;
    if ls != [] {
      ReadersNext(m, ls[0]);
      OnlyCopyNext(m, ls[0], k, encf, scope);
      OnlyCopyRun(Next(m, ls[0]), ls[1..], k, encf, scope);
    }
  }

  /** The attempt to store it tells DGII nothing, and stores it or drops the copy. */
  lemma AttemptStoresOrDrops(m: Machine, k: TxnKey, encf: string, l: Label)
    requires k in m.live && Unstored(m.live[k]) && m.live[k].doc.encf == encf && OwnStep(k, l)
    ensures var m' := Next(m, l);
            && m'.history == m.history
            && (k in m'.live && HasCopy(m'.live[k]) ==> k in m'.rows && m'.rows[k].encf == encf)
            && (forall j :: j in m'.rows && m'.rows[j].encf == encf && j != k ==> j in m.rows && m.rows[j].encf == encf)
            && (forall j :: j != k ==> (j in m'.live <==> j in m.live) && (j in m.live ==> m'.live[j] == m.live[j]))
            && (exists ks :: m'.writers == Touched(m.writers, ks))
  {
    hide D.NumberFree, Touched;
    var m' := Next(m, l);
    assert m.history + [] == m.history;
    TouchedNothing(m.writers);
    assert m'.writers == Touched(m.writers, {k}) || m'.writers == Touched(m.writers, {});
  }

  lemma TouchedNothing(ws: Writers)
    ensures Touched(ws, {}) == ws
  {
    assert forall i :: i in ws ==> ws[i].current - {} == ws[i].current;
  }

  lemma UnstoredIsFresh(m: Machine, k: TxnKey, encf: string, l: Label, scope: TxnKey -> string)
    requires OnlyCopy(m, k, encf, scope) && Unstored(m.live[k]) && OwnStep(k, l)
    ensures var m' := Next(m, l);
            Fresh(m', k, encf, scope) <==> !(k in m'.rows && m'.rows[k].encf == encf)
  {
    hide Next, Touched;
    AttemptStoresOrDrops(m, k, encf, l);
    var m' := Next(m, l);
    var ks :| m'.writers == Touched(m.writers, ks);
    if !(k in m'.rows && m'.rows[k].encf == encf) {
      forall j | scope(j) == scope(k) && j.amb == k.amb ensures !Used(m', j, encf) {
        assert j != k ==> !Used(m, j, encf);
        if i :| i in m'.writers && ReadWith(m'.writers[i], j, encf) {
          ReadAsBefore(m.writers, ks, i, j, encf);
        }
      }
    } else {
      assert Used(m', k, encf);
    }
  }

  lemma ReadAsBefore(ws: Writers, ks: set<TxnKey>, i: nat, j: TxnKey, encf: string)
    requires i in Touched(ws, ks) && ReadWith(Touched(ws, ks)[i], j, encf)
    ensures i in ws && ReadWith(ws[i], j, encf)
  {
  }

  /**
   Once the submission tried to store the number it drew, that number is fresh again exactly when
   the table does not hold it: this is when giving it back is sound.
   */
  lemma DrawnNumberReturnsIff(before: seq<Label>, k: TxnKey, encf: string, between: seq<Label>, attempt: Label,
                              scope: TxnKey -> string)
    requires AllFresh(START, before + [Advance(k, Number(encf))] + between, scope)
    requires Draws(Run(START, before), Advance(k, Number(encf)))
    requires (forall l :: l in between ==> Foreign(k, l)) && OwnStep(k, attempt)
    ensures var m := Run(START, before + [Advance(k, Number(encf))] + between + [attempt]);
            Fresh(m, k, encf, scope) <==> !(k in m.rows && m.rows[k].encf == encf)
  {
    hide Run, Next, Draws, Fresh, Readers, AllFresh, Foreign;
    var draw := Advance(k, Number(encf));
    DrawnIsOnlyCopy(before, k, encf, between, scope);
    var m := Run(START, before + [draw] + between);
    UnstoredIsFresh(m, k, encf, attempt, scope);
    RunConcat(START, before + [draw] + between, [attempt]);
    RunLabel(m, attempt);
  }

  lemma RunLabel(m: Machine, l: Label)
    ensures Run(m, [l]) == Next(m, l)
  {
    hide Next;
    assert [l][1..] == [];
  }

  lemma FreshLabel(m: Machine, l: Label, scope: TxnKey -> string)
    ensures AllFresh(m, [l], scope) <==> (Draws(m, l) ==> Fresh(m, l.key, l.choice.encf, scope))
  {
    hide Next, Draws, Fresh;
    assert [l][1..] == [];
  }

  lemma DrawnIsOnlyCopy(before: seq<Label>, k: TxnKey, encf: string, between: seq<Label>, scope: TxnKey -> string)
    requires AllFresh(START, before + [Advance(k, Number(encf))] + between, scope)
    requires Draws(Run(START, before), Advance(k, Number(encf))) && forall l :: l in between ==> Foreign(k, l)
    ensures var m := Run(START, before + [Advance(k, Number(encf))] + between);
            OnlyCopy(m, k, encf, scope) && Unstored(m.live[k])
  {
    hide Run, Next, Draws, Fresh, Readers, AllFresh, Foreign, OnlyCopy, Unstored;
    var draw := Advance(k, Number(encf));
    var m := Run(START, before);
    AllFreshConcat(START, before + [draw], between, scope);
    AllFreshConcat(START, before, [draw], scope);
    FreshLabel(m, draw, scope);
    StartReaders();
    ReadersRun(START, before);
    DrawIsOnlyCopy(m, k, encf, scope);
    ReadersNext(m, draw);
    RunConcat(START, before, [draw]);
    RunLabel(m, draw);
    RunConcat(START, before + [draw], between);
    OnlyCopyRun(Next(m, draw), between, k, encf, scope);
    CopyIsKept(Next(m, draw), between, k);
  }

  lemma StartReaders()
    ensures Readers(START)
  {
  }

  lemma {:induction false} CopyIsKept(m: Machine, ls: seq<Label>, k: TxnKey)
    requires k in m.live && forall l :: l in ls ==> Foreign(k, l)
    ensures k in Run(m, ls).live && Run(m, ls).live[k] == m.live[k]
    decreases |ls|
  {
    hide Foreign, Next;
    if ls != [] {
      CopyStays(m, k, ls[0]);
      CopyIsKept(Next(m, ls[0]), ls[1..], k);
    }
  }

  // ---- As the controller's code sees it -------------------------------------------------------

  /** The last step of the run drew this number for `k`. */
  ghost predicate JustDrawn(t: seq<Label>, k: TxnKey, encf: string) {
    && t != [] && t[|t| - 1] == Advance(k, Number(encf))
    && Draws(Run(START, t[..|t| - 1]), t[|t| - 1])
  }

  /** After steps of others the submission made its own one; if that did not save, the rows stayed. */
  ghost predicate Attempt(k: TxnKey, before: seq<Label>, after: seq<Label>, saved: bool) {
    exists between, l ::
      && after == before + between + [l] && OwnStep(k, l)
      && (forall x :: x in between ==> Foreign(k, x))
      && (!saved ==> Run(START, after).rows == Run(START, before + between).rows)
  }

  lemma FailedAttemptFrees(t: seq<Label>, k: TxnKey, encf: string, after: seq<Label>)
    requires JustDrawn(t, k, encf) && Attempt(k, t, after, false)
    ensures forall scope :: AllFresh(START, after, scope) ==> Fresh(Run(START, after), k, encf, scope)
  {
    hide Run, Next, Draws, Fresh, AllFresh, Foreign, OnlyCopy, Unstored;
    var before := t[..|t| - 1];
    var between, l :| && after == t + between + [l] && OwnStep(k, l) && (forall x :: x in between ==> Foreign(k, x))
                      && Run(START, after).rows == Run(START, t + between).rows;
    assert t == before + [Advance(k, Number(encf))];
    forall scope | AllFresh(START, after, scope) ensures Fresh(Run(START, after), k, encf, scope) {
      AllFreshConcat(START, t + between, [l], scope);
      DrawnNumberReturnsIff(before, k, encf, between, l, scope);
      DrawnIsOnlyCopy(before, k, encf, between, scope);
      NotInItsRow(Run(START, t + between), k, encf, scope);
    }
  }

  lemma NotInItsRow(m: Machine, k: TxnKey, encf: string, scope: TxnKey -> string)
    requires OnlyCopy(m, k, encf, scope)
    ensures !(k in m.rows && m.rows[k].encf == encf)
  {
  }
}
