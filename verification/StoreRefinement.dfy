/** The store is what its journal says: over every history of transactions the tables can be read
    off the journal, and the store's replies are the journal's. */
module StoreRefinement {
  import opened Options
  import opened AuditLedger
  import opened StoreSpec
  import opened StoreRuns
  import opened StoreJournal
  import opened StoreTheorems

  // ---------------------------------------------------------------- what the tables have to be

  /** An attempt row, for a life whose own entries are `own`. */
  function RowTold(x: Life, own: seq<Entry>): Attempt {
    var n := |Calls(own)|;
    Attempt(x.credential, "candidate_app", x.stage, x.createdAt, x.openedAt, x.fencedAt, x.finalizedAt, n,
            if x.seal.Some? then Some(n) else None, if x.seal.Some? then Some(|x.seal.value|) else None, x.seal.Some?)
  }

  function DossierTold(h: Hashing, a: string, x: Life, own: seq<Entry>): Dossier {
    Dossier(RowTold(x, own), Rows(own), Ledger(h, a, Calls(own)), x.observed)
  }

  ghost predicate DossiersTold(h: Hashing, j: Journal, ds: map<string, Dossier>) {
    && (forall a :: a in ds <==> a in j.lives)
    && (forall a :: a in j.lives ==> ds[a] == DossierTold(h, a, j.lives[a], EntriesOf(j.entries, a)))
  }

  ghost predicate ActiveTold(j: Journal, active: Option<string>) {
    forall a :: active == Some(a) <==> Live(j, a)
  }

  ghost predicate EventsTold(es: seq<Entry>, ids: set<string>) {
    forall id :: id in ids <==> EventUsed(es, id)
  }

  /** The tables hold what the journal says and nothing else. */
  ghost predicate Told(h: Hashing, j: Journal, t: Tables) {
    && DossiersTold(h, j, t.dossiers)
    && t.credentials == j.tokens
    && ActiveTold(j, t.active)
    && t.records == Records(j.entries)
    && EventsTold(j.entries, t.eventIds)
  }

  ghost predicate Distinct(es: seq<Entry>) {
    forall i, k :: 0 <= i < k < |es| ==>
      es[i].attempt != es[k].attempt || es[i].call.request != es[k].call.request
  }

  /** Every entry belongs to a known attempt and has its own request id, and a seal in force shows
      the first entries of its attempt. */
  ghost predicate Kept(j: Journal) {
    && (forall i :: 0 <= i < |j.entries| ==> j.entries[i].attempt in j.lives)
    && Distinct(j.entries)
    && (forall a :: a in j.lives && j.lives[a].seal.Some? ==> j.lives[a].seal.value <= EntriesOf(j.entries, a))
  }

  // ---------------------------------------------------------------- reading entries

  lemma {:induction false} NoEntriesOf(es: seq<Entry>, a: string)
    requires forall i :: 0 <= i < |es| ==> es[i].attempt != a
    ensures EntriesOf(es, a) == []
  {
    if es != [] {
      NoEntriesOf(es[..|es| - 1], a);
    }
  }

  lemma {:induction false} RowsUsed(es: seq<Entry>, a: string, r: string)
    ensures r in Rows(EntriesOf(es, a)) <==> Used(es, a, r)
  {
    if es != [] {
      var front, e := es[..|es| - 1], es[|es| - 1];
      RowsUsed(front, a, r);
      var own := EntriesOf(front, a);
      assert (own + [e])[..|own|] == own && own + [] == own;
      assert Used(front, a, r) ==> Used(es, a, r);
      if e.attempt == a && e.call.request == r {
        assert es[|es| - 1].attempt == a;
      } else if Used(es, a, r) {
        var i :| 0 <= i < |es| && es[i].attempt == a && es[i].call.request == r;
        assert front[i] == es[i];
      }
    }
  }

  /** Distinct entries stand for as many rows. */
  lemma {:induction false} RowCount(es: seq<Entry>, a: string)
    requires Distinct(es)
    ensures |Rows(EntriesOf(es, a))| == |EntriesOf(es, a)|
  {
    if es != [] {
      var front, e := es[..|es| - 1], es[|es| - 1];
      RowCount(front, a);
      RowsUsed(front, a, e.call.request);
      var own := EntriesOf(front, a);
      assert (own + [e])[..|own|] == own && own + [] == own;
    }
  }

  // ---------------------------------------------------------------- one step

  /** What one more entry adds to what is read off the entries. */
  lemma NoteReads(h: Hashing, es: seq<Entry>, e: Entry, b: string)
    ensures EntriesOf(es + [e], b) == EntriesOf(es, b) + if e.attempt == b then [e] else []
    ensures Records(es + [e]) ==
            if e.stage == OPEN
            then Records(es)[e.call.recordId := Record(e.call.value, e.attempt, e.call.request, e.call.now)]
            else Records(es)
    ensures forall id :: EventUsed(es + [e], id) <==> EventUsed(es, id) || (e.stage == OPEN && id == e.call.eventId)
  {
    assert (es + [e])[..|es|] == es;
    forall id | EventUsed(es, id) || (e.stage == OPEN && id == e.call.eventId) ensures EventUsed(es + [e], id) {
      if EventUsed(es, id) {
        var i :| 0 <= i < |es| && es[i].stage == OPEN && es[i].call.eventId == id;
        assert (es + [e])[i] == es[i];
      } else {
        assert (es + [e])[|es|] == e;
      }
    }
  }

  lemma NoteOwn(h: Hashing, a: string, own: seq<Entry>, e: Entry)
    ensures Rows(own + [e]) == Rows(own)[e.call.request := RowOf(e)]
    ensures Calls(own + [e]) == Calls(own) + if e.stage == OPEN then [e.call] else []
    ensures e.stage == OPEN ==>
              var front := Ledger(h, a, Calls(own));
              var c, n := e.call, |Calls(own)| + 1;
              var p := Payload(a, n, c.eventId, "database_write", c.request, "record_write", "candidate_app",
                               Details(c.recordId, c.assertedAttempt, c.assertedPrincipal), c.auditedAt, Tip(front));
              Ledger(h, a, Calls(own + [e])) == front + [Event(p, h.payload(p))]
  {
    assert (own + [e])[..|own|] == own;
    var calls := Calls(own);
    assert (calls + [e.call])[..|calls|] == calls;
  }

  lemma {:induction false} LedgerLength(h: Hashing, a: string, calls: seq<WriteCall>)
    ensures |Ledger(h, a, calls)| == |calls|
    ensures forall i :: 0 <= i < |calls| ==> Ledger(h, a, calls)[i].payload.seqNo == i + 1
  {
    if calls != [] {
      LedgerLength(h, a, calls[..|calls| - 1]);
    }
  }

  lemma TipHash(rows: seq<Event>)
    requires forall i :: 0 <= i < |rows| ==> rows[i].payload.seqNo == i + 1
    ensures HashAt(rows, |rows|) == Tip(rows)
  {
  }

  lemma AuditRowTold(h: Hashing, a: string, x: Life, own: seq<Entry>, w: WriteCall)
    ensures var d := DossierTold(h, a, x, own);
            Ledger(h, a, Calls(own + [Entry(a, w, OPEN)])) == d.audit + [AuditRow(h, a, d.row, d.audit, w)]
  {
    NoteOwn(h, a, own, Entry(a, w, OPEN));
    LedgerLength(h, a, Calls(own));
    TipHash(Ledger(h, a, Calls(own)));
    hide HashAt, Ledger, Rows, Calls, Tip;
  }

  lemma CommitTold(h: Hashing, a: string, x: Life, own: seq<Entry>, w: WriteCall)
    requires x.stage == OPEN && x.seal.None? && DossierOk(h, a, DossierTold(h, a, x, own))
    ensures CommitIn(h, a, DossierTold(h, a, x, own), w) == DossierTold(h, a, x, own + [Entry(a, w, OPEN)])
  {
    hide DossierOk, InsertBySeq, HashAt, Ledger, Rows, Calls, AuditRow, Tip;
    NoteOwn(h, a, own, Entry(a, w, OPEN));
    AuditRowTold(h, a, x, own, w);
    AppendsAtEnd(h, a, DossierTold(h, a, x, own), w);
    assert |Calls(own + [Entry(a, w, OPEN)])| == |Calls(own)| + 1;
  }

  lemma AppendsAtEnd(h: Hashing, a: string, d: Dossier, w: WriteCall)
    requires DossierOk(h, a, d)
    ensures var e := AuditRow(h, a, d.row, d.audit, w); InsertBySeq(d.audit, e) == d.audit + [e]
  {
    NextRowFits(h, a, d, w);
    hide CommitsMatchAudit, NothingAdmitted, SealConsistent, InsertBySeq, AuditRow;
  }

  lemma RejectTold(h: Hashing, a: string, x: Life, own: seq<Entry>, w: WriteCall)
    requires x.stage in {PREPARED, FENCED, RECOVERY_REQUIRED}
    ensures RejectIn(DossierTold(h, a, x, own), w) == DossierTold(h, a, x, own + [Entry(a, w, x.stage)])
  {
    NoteOwn(h, a, own, Entry(a, w, x.stage));
    assert Calls(own) + [] == Calls(own);
    RejectedRowTold(a, w, x.stage);
    hide Ledger, Rows, Calls, RowOf, RejectedRow;
  }

  lemma RejectedRowTold(a: string, w: WriteCall, s: AttemptState)
    requires s in {PREPARED, FENCED, RECOVERY_REQUIRED}
    ensures RejectedRow(w, s) == RowOf(Entry(a, w, s))
  {
    assert "attempt_state=" + "PREPARED" == "attempt_state=PREPARED";
    assert "attempt_state=" + "FENCED" == "attempt_state=FENCED";
    assert "attempt_state=" + "RECOVERY_REQUIRED" == "attempt_state=RECOVERY_REQUIRED";
  }

  lemma NoteKept(j: Journal, e: Entry)
    requires Kept(j) && e.attempt in j.lives && !Used(j.entries, e.attempt, e.call.request)
    ensures Kept(Note(j, e))
  {
    var es' := j.entries + [e];
    forall i, k | 0 <= i < k < |es'|
      ensures es'[i].attempt != es'[k].attempt || es'[i].call.request != es'[k].call.request
    {
      if k == |j.entries| && es'[i].attempt == e.attempt {
        assert j.entries[i].call.request != e.call.request;
      }
    }
    forall a | a in j.lives && j.lives[a].seal.Some? ensures j.lives[a].seal.value <= EntriesOf(es', a) {
      assert es'[..|j.entries|] == j.entries;
    }
  }

  lemma DossierAt(h: Hashing, j: Journal, ds: map<string, Dossier>, a: string)
    requires DossiersTold(h, j, ds)
    ensures a in ds <==> a in j.lives
    ensures a in ds ==> ds[a] == DossierTold(h, a, j.lives[a], EntriesOf(j.entries, a))
  {
    hide DossierTold;
  }

  lemma ActiveIff(j: Journal, active: Option<string>, a: string)
    requires ActiveTold(j, active)
    ensures active == Some(a) <==> Live(j, a)
  {
  }

  lemma NoteDossiers(h: Hashing, j: Journal, e: Entry, ds: map<string, Dossier>)
    requires DossiersTold(h, j, ds) && e.attempt in j.lives
    ensures var a := e.attempt;
            DossiersTold(h, Note(j, e), ds[a := DossierTold(h, a, j.lives[a], EntriesOf(j.entries, a) + [e])])
  {
    hide DossierTold;
    NoteReads(h, j.entries, e, e.attempt);
    forall b | b in j.lives && b != e.attempt
      ensures EntriesOf(j.entries + [e], b) == EntriesOf(j.entries, b)
    {
      NoteReads(h, j.entries, e, b);
    }
    hide EntriesOf, EventUsed, Records;
  }

  lemma NoteEvents(h: Hashing, es: seq<Entry>, e: Entry, ids: set<string>)
    requires EventsTold(es, ids)
    ensures EventsTold(es + [e], if e.stage == OPEN then ids + {e.call.eventId} else ids)
  {
    NoteReads(h, es, e, e.attempt);
    hide EventUsed, EntriesOf, Records;
  }

  lemma NoteActive(j: Journal, e: Entry, active: Option<string>)
    requires ActiveTold(j, active)
    ensures ActiveTold(Note(j, e), active)
  {
    assert forall a :: Live(Note(j, e), a) <==> Live(j, a);
  }

  /** A new entry of `a` changes the tables as the write does. */
  lemma NoteTold(h: Hashing, j: Journal, t: Tables, e: Entry, t': Tables)
    requires Told(h, j, t) && e.attempt in j.lives
    requires var a := e.attempt;
             t'.dossiers == t.dossiers[a := DossierTold(h, a, j.lives[a], EntriesOf(j.entries, a) + [e])]
    requires t'.credentials == t.credentials && t'.active == t.active
    requires t'.records ==
             if e.stage == OPEN
             then t.records[e.call.recordId := Record(e.call.value, e.attempt, e.call.request, e.call.now)]
             else t.records
    requires t'.eventIds == if e.stage == OPEN then t.eventIds + {e.call.eventId} else t.eventIds
    ensures Told(h, Note(j, e), t')
  {
    hide DossiersTold, DossierTold, ActiveTold, EventsTold, EventUsed, Records, EntriesOf;
    NoteReads(h, j.entries, e, e.attempt);
    NoteDossiers(h, j, e, t.dossiers);
    NoteEvents(h, j.entries, e, t.eventIds);
    NoteActive(j, e, t.active);
  }

  /** What is known of an attempt that the tables call active. */
  lemma ActiveLife(h: Hashing, j: Journal, t: Tables, a: string)
    requires Told(h, j, t) && Inv(h, t) && Live(j, a)
    ensures t.active == Some(a) && a in j.lives && a in t.dossiers
    ensures t.dossiers[a] == DossierTold(h, a, j.lives[a], EntriesOf(j.entries, a))
    ensures j.lives[a].seal.Some? ==> j.lives[a].stage == FENCED
    ensures DossierOk(h, a, t.dossiers[a]) && Drained(t.dossiers[a].requests)
    ensures LedgerIntact(h.payload, t.dossiers[a].row.watermark, t.dossiers[a].audit)
    ensures NothingAdmitted(t.dossiers[a].requests)
  {
    hide DossiersTold, ActiveTold, EventsTold, DossierOk, LedgerIntact, EntriesOf, Rows, Ledger, Calls, Records, Inv;
    ActiveIff(j, t.active, a);
    DossierAt(h, j, t.dossiers, a);
    ActiveDossier(h, t);
  }

  lemma TokenTold(h: Hashing, j: Journal, t: Tables, c: string)
    requires Told(h, j, t) && Inv(h, t)
    ensures t.credentials == j.tokens
    ensures c in j.tokens ==> j.tokens[c] in t.dossiers && (t.active == Some(j.tokens[c]) <==> Live(j, j.tokens[c]))
  {
    hide DossiersTold, ActiveTold, EventsTold, DossierOk, Records, RecordsOk, ActiveExact, Live;
    if c in j.tokens {
      ActiveIff(j, t.active, j.tokens[c]);
    }
  }

  lemma WriteTold(h: Hashing, j: Journal, t: Tables, w: WriteCall)
    requires Told(h, j, t) && Kept(j) && Inv(h, t)
    ensures WriteStep(h, t, w).1 == NextWrite(h, j, w).1
    ensures Told(h, NextWrite(h, j, w).0, WriteStep(h, t, w).0) && Kept(NextWrite(h, j, w).0)
  {
    hide Told, Kept, Inv, EntriesOf, Used, EventUsed, DossierOk, AdmittedStep, Rows, Ledger, Calls, RejectIn, Live,
         NothingAdmitted, LedgerIntact, Drained;
    var c := h.token(w.token);
    TokenTold(h, j, t, c);
    if c in j.tokens && Live(j, j.tokens[c]) {
      var a := j.tokens[c];
      ActiveLife(h, j, t, a);
      RowsUsed(j.entries, a, w.request);
      assert w.request in t.dossiers[a].requests <==> Used(j.entries, a, w.request);
      if !Used(j.entries, a, w.request) {
        LiveWriteTold(h, j, t, a, w);
      }
    }
    hide DossierTold;
  }

  /** The last part of `NextWrite`: the write of a live attempt under a new request id. */
  ghost predicate WriteAgrees(h: Hashing, j: Journal, t: Tables, a: string, w: WriteCall, t': Tables, r: Reply)
    requires a in j.lives
  {
    var e := Entry(a, w, j.lives[a].stage);
    if j.lives[a].stage != OPEN then
      Told(h, Note(j, e), t') && Kept(Note(j, e)) && r == Wrote(a, w.request, false, None)
    else if w.fault == Some(AuditFailure) then t' == t && r == Raised(InjectedFault)
    else if EventUsed(j.entries, w.eventId) then t' == t && r == Raised(ConstraintViolation)
    else if w.fault == Some(CrashBeforeCommit) then t' == t && r == Raised(InjectedFault)
    else
      && Told(h, Note(j, e), t') && Kept(Note(j, e))
      && r == if w.fault == Some(LostResponse) then Raised(ResponseLoss)
              else Wrote(a, w.request, true, Some(|CallsOf(j.entries, a)| + 1))
  }

  lemma LiveWriteTold(h: Hashing, j: Journal, t: Tables, a: string, w: WriteCall)
    requires Told(h, j, t) && Kept(j) && Live(j, a) && a in t.dossiers
    requires t.dossiers[a] == DossierTold(h, a, j.lives[a], EntriesOf(j.entries, a))
    requires DossierOk(h, a, t.dossiers[a]) && (j.lives[a].seal.Some? ==> j.lives[a].stage == FENCED)
    requires !Used(j.entries, a, w.request)
    ensures var d := t.dossiers[a];
            var (t', r) := if d.row.state == OPEN then AdmittedStep(h, t, a, w)
                           else (t.(dossiers := t.dossiers[a := RejectIn(d, w)]), Wrote(a, w.request, false, None));
            WriteAgrees(h, j, t, a, w, t', r)
  {
    var x, own := j.lives[a], EntriesOf(j.entries, a);
    NoteKept(j, Entry(a, w, x.stage));
    hide Kept, DossierOk, EntriesOf, Used;
    if x.stage == OPEN {
      AdmittedTold(h, j, t, a, w);
    } else {
      assert x.stage in {PREPARED, FENCED, RECOVERY_REQUIRED};
      RejectTold(h, a, x, own, w);
      hide Told, RejectIn;
      NoteTold(h, j, t, Entry(a, w, x.stage), t.(dossiers := t.dossiers[a := RejectIn(t.dossiers[a], w)]));
    }
    hide Told, RejectIn, AdmittedStep, EventUsed;
  }

  lemma ConflictTold(h: Hashing, j: Journal, t: Tables, a: string, d: Dossier, w: WriteCall)
    requires Told(h, j, t) && DossierOk(h, a, d)
    ensures AuditInsertConflicts(t.eventIds, d.audit, d.row, w) <==> EventUsed(j.entries, w.eventId)
  {
    NextRowFits(h, a, d, w);
    hide DossierOk, SeqTaken, EntriesOf, InsertBySeq, AuditRow, DossiersTold, ActiveTold, EventUsed;
  }

  lemma AdmittedTold(h: Hashing, j: Journal, t: Tables, a: string, w: WriteCall)
    requires Told(h, j, t) && Kept(Note(j, Entry(a, w, OPEN)))
    requires a in j.lives && j.lives[a].stage == OPEN && j.lives[a].seal.None? && a in t.dossiers
    requires t.dossiers[a] == DossierTold(h, a, j.lives[a], EntriesOf(j.entries, a))
    requires DossierOk(h, a, t.dossiers[a])
    ensures var (t', r) := AdmittedStep(h, t, a, w); WriteAgrees(h, j, t, a, w, t', r)
  {
    hide Told, Kept, DossierOk, EntriesOf, AuditInsertConflicts, CommitIn, EventUsed, Rows, Ledger, Calls, Note;
    ConflictTold(h, j, t, a, t.dossiers[a], w);
    CommitTold(h, a, j.lives[a], EntriesOf(j.entries, a), w);
    NoteTold(h, j, t, Entry(a, w, OPEN), CommitWrite(h, t, a, w));
    hide CommitWrite;
  }

  // ---------------------------------------------------------------- control steps

  /** What the guard of a control transaction sees is the attempt's own stage. */
  lemma GuardTold(h: Hashing, j: Journal, t: Tables, a: string, s: AttemptState)
    requires Told(h, j, t) && !Terminal(s)
    ensures IsActiveIn(t, a, s) <==> In(j, a, s)
  {
    hide Records, EntriesOf, Rows, Ledger, Calls, EventsTold;
  }

  /** A changed life of one attempt changes its dossier alone. */
  lemma PutTold(h: Hashing, j: Journal, t: Tables, a: string, x: Life, d: Dossier, active: Option<string>)
    requires Told(h, j, t) && Kept(j) && t.active == Some(a) && a in j.lives
    requires d == DossierTold(h, a, x, EntriesOf(j.entries, a))
    requires active == if Terminal(x.stage) then None else Some(a)
    requires x.seal.Some? ==> x.seal.value <= EntriesOf(j.entries, a)
    ensures Told(h, Put(j, a, x), t.(dossiers := t.dossiers[a := d], active := active)) && Kept(Put(j, a, x))
  {
    hide DossierTold, EntriesOf, Records, EventsTold, Distinct;
    forall b ensures active == Some(b) <==> Live(Put(j, a, x), b) {
      assert t.active == Some(b) <==> Live(j, b);
    }
  }

  lemma RestartedLives(j: Journal, active: Option<string>)
    requires ActiveTold(j, active)
    ensures var lives := map a | a in j.lives :: Restarted(j.lives[a]);
            lives == if active.Some? && active.value in j.lives
                     then j.lives[active.value := Restarted(j.lives[active.value])] else j.lives
  {
    forall b | b in j.lives && active != Some(b) ensures Restarted(j.lives[b]) == j.lives[b] {
      assert !Live(j, b);
    }
  }

  lemma BootstrapTold(h: Hashing, j: Journal, t: Tables)
    requires Told(h, j, t) && Kept(j) && Inv(h, t)
    ensures var (j', r) := NextControl(h, j, Bootstrap);
            BootstrapStep(t).1 == r && Told(h, j', BootstrapStep(t).0) && Kept(j')
  {
    hide Kept, Inv, EntriesOf, DossierOk, Rows, Ledger, Calls, NothingAdmitted, LedgerIntact, Drained, DossiersTold,
         ActiveTold, EventsTold, Records, Restarted;
    RestartedLives(j, t.active);
    if t.active.Some? {
      var a := t.active.value;
      ActiveIff(j, t.active, a);
      ActiveLife(h, j, t, a);
      RestartedLife(j.lives[a]);
      hide Told;
      var x := Restarted(j.lives[a]);
      if x != j.lives[a] {
        PutTold(h, j, t, a, x, DossierTold(h, a, x, EntriesOf(j.entries, a)), Some(a));
        assert BootstrapStep(t).0.dossiers[a] == DossierTold(h, a, x, EntriesOf(j.entries, a));
      } else {
        assert j.lives[a := x] == j.lives;
      }
    }
    hide Told, DossierTold;
  }

  lemma RestartedLife(x: Life)
    ensures Restarted(x) == if x.stage in {PREPARED, OPEN, FENCED}
                            then x.(stage := RECOVERY_REQUIRED, seal := None) else x
    ensures x.stage in {PREPARED, OPEN, FENCED} ==> Restarted(x) != x
  {
  }

  lemma SomeoneLive(h: Hashing, j: Journal, t: Tables)
    requires Told(h, j, t)
    ensures t.active.Some? <==> exists b :: Live(j, b)
  {
    if t.active.Some? {
      assert Live(j, t.active.value);
    }
    forall b | Live(j, b) ensures t.active.Some? {
      assert t.active == Some(b);
    }
  }

  lemma NewActive(j: Journal, a: string, x: Life, c: string)
    requires ActiveTold(j, None) && a !in j.lives && !Terminal(x.stage)
    ensures ActiveTold(Put(j, a, x).(tokens := j.tokens[c := a]), Some(a))
  {
    forall b | b != a ensures !Live(j, b) {
      assert None != Some(b);
    }
  }

  /** A new attempt beside those there are, when none of them is live. */
  lemma NewLifeTold(h: Hashing, j: Journal, t: Tables, a: string, x: Life, c: string, d: Dossier)
    requires Told(h, j, t) && Kept(j) && t.active.None? && a !in j.lives && !Terminal(x.stage) && x.seal.None?
    requires d == DossierTold(h, a, x, EntriesOf(j.entries, a))
    ensures var j' := Put(j, a, x).(tokens := j.tokens[c := a]);
            var t' := t.(dossiers := t.dossiers[a := d], credentials := t.credentials[c := a], active := Some(a));
            Told(h, j', t') && Kept(j')
  {
    hide Records, EventsTold, Distinct, EntriesOf, DossierTold, ActiveTold, Terminal;
    NewActive(j, a, x, c);
  }

  lemma CreateTold(h: Hashing, j: Journal, t: Tables, a: string, token: string, now: Time)
    requires Told(h, j, t) && Kept(j)
    ensures var (j', r) := NextControl(h, j, Create(a, token, now));
            CreateStep(h, t, a, token, now).1 == r && Told(h, j', CreateStep(h, t, a, token, now).0) && Kept(j')
  {
    SomeoneLive(h, j, t);
    assert (a in t.dossiers <==> a in j.lives) && t.credentials == j.tokens;
    if t.active.None? && a !in j.lives && h.token(token) !in j.tokens {
      NoEntriesOf(j.entries, a);
      var c := h.token(token);
      var x := Life(PREPARED, c, now, None, None, None, None, 0);
      assert DossierTold(h, a, x, []) == Dossier(NewAttempt(c, now), map[], [], 0);
      hide Told, Kept, EntriesOf;
      NewLifeTold(h, j, t, a, x, c, DossierTold(h, a, x, []));
    }
    hide Told, Kept, Live;
  }

  lemma OpenTold(h: Hashing, j: Journal, t: Tables, a: string, now: Time)
    requires Told(h, j, t) && Kept(j) && Inv(h, t)
    ensures var (j', r) := NextControl(h, j, Open(a, now));
            OpenStep(t, a, now).1 == r && Told(h, j', OpenStep(t, a, now).0) && Kept(j')
  {
    hide Told, Kept, Inv, EntriesOf, DossierOk, Rows, Ledger, Calls, NothingAdmitted, LedgerIntact, Drained, IsActiveIn;
    GuardTold(h, j, t, a, PREPARED);
    if In(j, a, PREPARED) {
      ActiveLife(h, j, t, a);
      var x := j.lives[a].(stage := OPEN, openedAt := Some(now));
      PutTold(h, j, t, a, x, DossierTold(h, a, x, EntriesOf(j.entries, a)), Some(a));
    }
  }

  lemma CloseTold(h: Hashing, j: Journal, t: Tables, a: string, now: Time)
    requires Told(h, j, t) && Kept(j) && Inv(h, t)
    ensures var (j', r) := NextControl(h, j, Close(a, now));
            CloseStep(t, a, now).1 == r && Told(h, j', CloseStep(t, a, now).0) && Kept(j')
  {
    hide Told, Kept, Inv, EntriesOf, DossierOk, Rows, Ledger, Calls, NothingAdmitted, LedgerIntact, Drained, IsActiveIn;
    GuardTold(h, j, t, a, OPEN);
    if In(j, a, OPEN) {
      ActiveLife(h, j, t, a);
      var x := j.lives[a].(stage := FENCED, fencedAt := Some(now));
      PutTold(h, j, t, a, x, DossierTold(h, a, x, EntriesOf(j.entries, a)), Some(a));
    }
  }

  lemma AbortTold(h: Hashing, j: Journal, t: Tables, a: string, now: Time)
    requires Told(h, j, t) && Kept(j) && Inv(h, t)
    ensures var (j', r) := NextControl(h, j, AbortRecovery(a, now));
            AbortStep(t, a, now).1 == r && Told(h, j', AbortStep(t, a, now).0) && Kept(j')
  {
    hide Told, Kept, Inv, EntriesOf, DossierOk, Rows, Ledger, Calls, NothingAdmitted, LedgerIntact, Drained, IsActiveIn,
         FailAdmitted;
    GuardTold(h, j, t, a, RECOVERY_REQUIRED);
    if In(j, a, RECOVERY_REQUIRED) {
      ActiveLife(h, j, t, a);
      AbortFailsNothing(t.dossiers[a].requests, now);
      var x := j.lives[a].(stage := ABORTED);
      PutTold(h, j, t, a, x, DossierTold(h, a, x, EntriesOf(j.entries, a)), None);
    }
  }

  lemma CursorTold(h: Hashing, j: Journal, t: Tables)
    requires Told(h, j, t) && Kept(j) && Inv(h, t)
    ensures var (j', r) := NextControl(h, j, ResetCursor);
            ResetCursorStep(t).1 == r && Told(h, j', ResetCursorStep(t).0) && Kept(j')
  {
    SomeoneLive(h, j, t);
    hide Kept, Inv, EntriesOf, DossierOk, Rows, Ledger, Calls, NothingAdmitted, LedgerIntact, Drained, Live,
         ActiveTold, DossiersTold, EventsTold, Records, NextControl, DossierTold;
    if t.active.Some? {
      var a := t.active.value;
      ActiveIff(j, t.active, a);
      ActiveLife(h, j, t, a);
      CursorChosen(h, j, t.active, a);
      hide Told, ResetCursorStep;
      CursorPut(h, j, t, a);
    } else {
      CursorRefused(h, j);
    }
  }

  lemma CursorChosen(h: Hashing, j: Journal, active: Option<string>, a: string)
    requires ActiveTold(j, active) && Live(j, a)
    ensures var n := |CallsOf(j.entries, a)|;
            NextControl(h, j, ResetCursor) == (Put(j, a, j.lives[a].(observed := n)), CursorAt(n))
  {
    hide CallsOf;
    forall b | Live(j, b) ensures b == a {
      assert active == Some(b) && active == Some(a);
    }
  }

  lemma CursorRefused(h: Hashing, j: Journal)
    requires !exists b :: Live(j, b)
    ensures NextControl(h, j, ResetCursor) == (j, Raised(InvalidAttemptState))
  {
  }

  lemma CursorPut(h: Hashing, j: Journal, t: Tables, a: string)
    requires Told(h, j, t) && Kept(j) && t.active == Some(a) && a in t.dossiers && a in j.lives && Live(j, a)
    requires t.dossiers[a] == DossierTold(h, a, j.lives[a], EntriesOf(j.entries, a))
    ensures ResetCursorStep(t).1 == CursorAt(|CallsOf(j.entries, a)|)
    ensures var j' := Put(j, a, j.lives[a].(observed := |CallsOf(j.entries, a)|));
            Told(h, j', ResetCursorStep(t).0) && Kept(j')
  {
    assert j.lives[a].seal.Some? ==> j.lives[a].seal.value <= EntriesOf(j.entries, a);
    hide Told, Kept, EntriesOf, Rows, Ledger, Calls, Put;
    var x := j.lives[a].(observed := |CallsOf(j.entries, a)|);
    PutTold(h, j, t, a, x, DossierTold(h, a, x, EntriesOf(j.entries, a)), Some(a));
  }

  /** Each row of the ledger shows what its call said. */
  lemma {:induction false} LedgerShows(h: Hashing, a: string, calls: seq<WriteCall>)
    ensures ObserveAll(Ledger(h, a, calls)) == AllShown(calls)
  {
    LedgerLength(h, a, calls);
    if calls != [] {
      LedgerShows(h, a, calls[..|calls| - 1]);
      LedgerLength(h, a, calls[..|calls| - 1]);
      var rows, front := Ledger(h, a, calls), Ledger(h, a, calls[..|calls| - 1]);
      assert ObserveAll(rows) == ObserveAll(front) + [Observe(rows[|rows| - 1])];
    }
  }

  lemma SnapshotTold(h: Hashing, j: Journal, t: Tables, a: string)
    requires Told(h, j, t) && Kept(j) && Inv(h, t)
    ensures var (j', r) := NextControl(h, j, FinalSnapshot(a));
            FinalSnapshotStep(h, t, a).1 == r && Told(h, j', FinalSnapshotStep(h, t, a).0) && Kept(j')
  {
    hide Told, Kept, Inv, EntriesOf, DossierOk, Rows, Ledger, Calls, NothingAdmitted, LedgerIntact, Drained, IsActiveIn,
         ObserveAll, AllShown, DossierTold;
    GuardTold(h, j, t, a, FENCED);
    if In(j, a, FENCED) {
      ActiveLife(h, j, t, a);
      var own := EntriesOf(j.entries, a);
      LedgerShows(h, a, Calls(own));
      SealedDossier(h, j, a);
      var x := j.lives[a].(seal := Some(own));
      PutTold(h, j, t, a, x, DossierTold(h, a, x, own), Some(a));
    }
  }

  /** Sealing an attempt's life is writing the three seal columns of its row. */
  lemma SealedDossier(h: Hashing, j: Journal, a: string)
    requires Kept(j) && a in j.lives
    ensures var own := EntriesOf(j.entries, a);
            var d := DossierTold(h, a, j.lives[a], own);
            && d.row.watermark == |Calls(own)| && d.requests == Rows(own) && d.audit == Ledger(h, a, Calls(own))
            && DossierTold(h, a, j.lives[a].(seal := Some(own)), own)
               == d.(row := d.row.(auditComplete := true, finalWatermark := Some(d.row.watermark),
                                   finalRequestCount := Some(|d.requests|)))
  {
    RowCount(j.entries, a);
    hide EntriesOf, Rows, Ledger, Calls, Kept;
  }

  /** A seal in force that shows as many entries as there are shows them all. */
  lemma SealShowsAll(j: Journal, a: string)
    requires Kept(j) && a in j.lives && j.lives[a].seal.Some?
    ensures j.lives[a].seal.value == EntriesOf(j.entries, a)
            <==> |j.lives[a].seal.value| == |Rows(EntriesOf(j.entries, a))|
    ensures j.lives[a].seal.value <= EntriesOf(j.entries, a)
  {
    RowCount(j.entries, a);
    hide Distinct, EntriesOf, Rows;
  }

  lemma FinalizeTold(h: Hashing, j: Journal, t: Tables, a: string, now: Time)
    requires Told(h, j, t) && Kept(j) && Inv(h, t)
    ensures var (j', r) := NextControl(h, j, Finalize(a, now));
            FinalizeStep(h, t, a, now).1 == r && Told(h, j', FinalizeStep(h, t, a, now).0) && Kept(j')
  {
    hide Told, Kept, Inv, EntriesOf, DossierOk, Rows, Ledger, Calls, NothingAdmitted, LedgerIntact, Drained, IsActiveIn;
    GuardTold(h, j, t, a, FENCED);
    if In(j, a, FENCED) {
      ActiveLife(h, j, t, a);
      if j.lives[a].seal.Some? {
        SealShowsAll(j, a);
        var x := j.lives[a].(stage := FINALIZED, finalizedAt := Some(now));
        PutTold(h, j, t, a, x, DossierTold(h, a, x, EntriesOf(j.entries, a)), None);
      }
    }
  }

  lemma StepTold(h: Hashing, j: Journal, t: Tables, op: Op)
    requires Told(h, j, t) && Kept(j) && Inv(h, t)
    ensures Step(h, t, op).1 == Next(h, j, op).1
    ensures Told(h, Next(h, j, op).0, Step(h, t, op).0) && Kept(Next(h, j, op).0)
  {
    hide Told, Kept, Inv, WriteStep, NextWrite, BootstrapStep, CreateStep, OpenStep, CloseStep, AbortStep,
         ResetCursorStep, FinalSnapshotStep, FinalizeStep, NextControl;
    match op
    case Write(w) => WriteTold(h, j, t, w);
    case Bootstrap => BootstrapTold(h, j, t);
    case Create(a, token, now) => CreateTold(h, j, t, a, token, now);
    case Open(a, now) => OpenTold(h, j, t, a, now);
    case Close(a, now) => CloseTold(h, j, t, a, now);
    case AbortRecovery(a, now) => AbortTold(h, j, t, a, now);
    case ResetCursor => CursorTold(h, j, t);
    case FinalSnapshot(a) => SnapshotTold(h, j, t, a);
    case Finalize(a, now) => FinalizeTold(h, j, t, a, now);
  }

  // ---------------------------------------------------------------- whole histories

  lemma {:induction false} RunTold(h: Hashing, j: Journal, t: Tables, ops: seq<Op>)
    requires Told(h, j, t) && Kept(j) && Inv(h, t)
    ensures Told(h, Journaled(h, j, ops), Run(h, t, ops)) && Kept(Journaled(h, j, ops))
  {
    if ops != [] {
      RunTold(h, j, t, ops[..|ops| - 1]);
      RunKeeps(h, t, ops[..|ops| - 1]);
      hide Told, Kept, Inv, Step, Next;
      StepTold(h, Journaled(h, j, ops[..|ops| - 1]), Run(h, t, ops[..|ops| - 1]), ops[|ops| - 1]);
    }
  }

  lemma HistoryTold(h: Hashing, ops: seq<Op>)
    ensures Told(h, JournalOf(h, ops), Run(h, EMPTY, ops)) && Kept(JournalOf(h, ops))
  {
    hide Run, Journaled;
    RunTold(h, BLANK, EMPTY, ops);
  }

  /** The store refines the journal. After every history the tables are those the journal tells,
      column by column, and the next transaction gets the reply that the journal gives it. */
  lemma StoreRefinesJournal(h: Hashing, ops: seq<Op>, op: Op)
    ensures Told(h, JournalOf(h, ops), Run(h, EMPTY, ops))
    ensures Step(h, Run(h, EMPTY, ops), op).1 == Next(h, JournalOf(h, ops), op).1
  {
    HistoryTold(h, ops);
    EveryHistoryKeepsInv(h, ops);
    hide Told, Kept, Inv, Step, Next, Run, JournalOf;
    StepTold(h, JournalOf(h, ops), Run(h, EMPTY, ops), op);
  }

  // ---------------------------------------------------------------- writes

  /** What one write call of attempt `a` leaves and answers. A request the attempt has a row for is a
      conflict. Otherwise there is a row for it exactly when the caller is told so, or would have been
      had the response not been lost; it is a rejected one exactly when the attempt was not open, and
      an open attempt takes the write exactly when no fault before the commit is injected and the
      event id is new. Any other error leaves the tables alone. */
  ghost predicate LeavesItsRow(t: Tables, a: string, w: WriteCall, t': Tables, r: Reply)
    requires a in t.dossiers && a in t'.dossiers
  {
    var d, d' := t.dossiers[a], t'.dossiers[a];
    var taken := (w.fault.None? || w.fault == Some(LostResponse)) && w.eventId !in t.eventIds;
    && (r == Raised(RequestConflict) <==> w.request in d.requests)
    && (w.request !in d.requests ==>
          && (w.request in d'.requests <==> r.Wrote? || r == Raised(ResponseLoss))
          && (w.request in d'.requests <==> d.row.state != OPEN || taken)
          && (w.request in d'.requests ==>
                && d'.requests == d.requests[w.request := RowOf(Entry(a, w, d.row.state))]
                && (d'.requests[w.request].state == REJECTED <==> d.row.state != OPEN)
                && (d'.requests[w.request].state == COMMITTED <==> d.row.state == OPEN))
          && (d.row.state != OPEN ==>
                r == Wrote(a, w.request, false, None) && t'.records == t.records && d'.audit == d.audit)
          && (d.row.state == OPEN && taken ==>
                && r == (if w.fault.Some? then Raised(ResponseLoss)
                         else Wrote(a, w.request, true, Some(|d.audit| + 1)))
                && |d'.audit| == |d.audit| + 1
                && t'.records == t.records[w.recordId := Record(w.value, a, w.request, w.now)]))
    && (r.Raised? && r.error != ResponseLoss ==> t' == t)
  }

  lemma WriteLeavesRow(h: Hashing, ops: seq<Op>, w: WriteCall, a: string)
    requires var t := Run(h, EMPTY, ops);
             t.active == Some(a) && h.token(w.token) in t.credentials && t.credentials[h.token(w.token)] == a
    ensures var t := Run(h, EMPTY, ops);
            var (t', r) := Step(h, t, Write(w));
            a in t.dossiers && a in t'.dossiers && LeavesItsRow(t, a, w, t', r)
  {
    EveryHistoryKeepsInv(h, ops);
    var t := Run(h, EMPTY, ops);
    assert Step(h, t, Write(w)) == WriteStep(h, t, w);
    hide *;
    ActiveDossier(h, t);
    ActiveWriteLeavesRow(h, t, a, w);
  }

  lemma ActiveWriteLeavesRow(h: Hashing, t: Tables, a: string, w: WriteCall)
    requires t.active == Some(a) && h.token(w.token) in t.credentials && t.credentials[h.token(w.token)] == a
    requires a in t.dossiers && DossierOk(h, a, t.dossiers[a]) && !Terminal(t.dossiers[a].row.state)
    ensures var (t', r) := WriteStep(h, t, w);
            a in t'.dossiers && LeavesItsRow(t, a, w, t', r)
  {
    hide DossierOk, AdmittedStep, LeavesItsRow, RejectIn, RejectedRow;
    if w.request in t.dossiers[a].requests {
      ConflictLeavesAll(t, a, w);
    } else if t.dossiers[a].row.state == OPEN {
      AdmittedLeavesRow(h, t, a, w);
    } else {
      RejectLeavesRow(t, a, w);
    }
  }

  lemma ConflictLeavesAll(t: Tables, a: string, w: WriteCall)
    requires a in t.dossiers && w.request in t.dossiers[a].requests
    ensures LeavesItsRow(t, a, w, t, Raised(RequestConflict))
  {
  }

  lemma RejectLeavesRow(t: Tables, a: string, w: WriteCall)
    requires a in t.dossiers && t.dossiers[a].row.state in {PREPARED, FENCED, RECOVERY_REQUIRED}
    requires w.request !in t.dossiers[a].requests
    ensures var t' := t.(dossiers := t.dossiers[a := RejectIn(t.dossiers[a], w)]);
            LeavesItsRow(t, a, w, t', Wrote(a, w.request, false, None))
  {
    RejectedRowTold(a, w, t.dossiers[a].row.state);
    assert RejectedRow(w, t.dossiers[a].row.state).state == REJECTED;
    hide RowOf, RejectedRow;
  }

  lemma AdmittedLeavesRow(h: Hashing, t: Tables, a: string, w: WriteCall)
    requires a in t.dossiers && DossierOk(h, a, t.dossiers[a])
    requires t.dossiers[a].row.state == OPEN && w.request !in t.dossiers[a].requests
    ensures var (t', r) := AdmittedStep(h, t, a, w);
            a in t'.dossiers && LeavesItsRow(t, a, w, t', r)
  {
    NextRowFits(h, a, t.dossiers[a], w);
    assert CommittedRow(w) == RowOf(Entry(a, w, OPEN)) && CommittedRow(w).state == COMMITTED;
    assert t.dossiers[a].row.watermark == |t.dossiers[a].audit|;
    assert w.fault.Some? ==>
             w.fault.value.AuditFailure? || w.fault.value.CrashBeforeCommit? || w.fault.value.LostResponse?;
    hide RowOf, CommittedRow, DossierOk, InsertBySeq, SeqTaken, AuditRow;
  }

  // ---------------------------------------------------------------- late writes

  /** The seal in force, if any, misses an entry of its attempt. */
  ghost predicate Behind(j: Journal, a: string) {
    a in j.lives && (j.lives[a].seal.Some? ==> |j.lives[a].seal.value| < |EntriesOf(j.entries, a)|)
  }

  lemma NextStaysBehind(h: Hashing, j: Journal, op: Op, a: string)
    requires Behind(j, a) && op != FinalSnapshot(a)
    ensures Behind(Next(h, j, op).0, a)
  {
    if op.Write? {
      var j' := NextWrite(h, j, op.call).0;
      if j' != j {
        NoteReads(h, j.entries, j'.entries[|j.entries|], a);
      }
    }
    hide EntriesOf, Used, EventUsed;
  }

  lemma {:induction false} StaysBehind(h: Hashing, j: Journal, ops: seq<Op>, a: string)
    requires Behind(j, a) && forall i :: 0 <= i < |ops| ==> ops[i] != FinalSnapshot(a)
    ensures Behind(Journaled(h, j, ops), a)
  {
    if ops != [] {
      StaysBehind(h, j, ops[..|ops| - 1], a);
      hide Behind, Next;
      NextStaysBehind(h, Journaled(h, j, ops[..|ops| - 1]), ops[|ops| - 1], a);
    }
  }

  lemma LateWriteIsBehind(h: Hashing, j: Journal, w: WriteCall, a: string)
    requires Kept(j) && h.token(w.token) in j.tokens && j.tokens[h.token(w.token)] == a && Live(j, a)
    requires !Used(j.entries, a, w.request) && j.lives[a].stage != OPEN
    ensures Behind(Next(h, j, Write(w)).0, a)
  {
    NoteReads(h, j.entries, Entry(a, w, j.lives[a].stage), a);
    hide EntriesOf, Used, EventUsed, Distinct;
  }

  /** A late write blocks finalizing. A write with the active attempt's token and a new request id
      that comes when the attempt is not open makes every later finalize refuse, whatever seal
      was taken before it and whatever else happens, until another final snapshot is taken. */
  lemma LateWriteBlocksFinalize(h: Hashing, ops: seq<Op>, w: WriteCall, between: seq<Op>, a: string, now: Time)
    requires var t := Run(h, EMPTY, ops);
             && t.active == Some(a) && h.token(w.token) in t.credentials && t.credentials[h.token(w.token)] == a
             && (a in t.dossiers ==> w.request !in t.dossiers[a].requests && t.dossiers[a].row.state != OPEN)
    requires forall i :: 0 <= i < |between| ==> between[i] != FinalSnapshot(a)
    ensures var after := Step(h, Run(h, EMPTY, ops), Write(w)).0;
            Step(h, Run(h, after, between), Finalize(a, now)).1 == Raised(InvalidAttemptState)
  {
    var j, t := JournalOf(h, ops), Run(h, EMPTY, ops);
    HistoryTold(h, ops);
    EveryHistoryKeepsInv(h, ops);
    RowsUsed(j.entries, a, w.request);
    assert Live(j, a);
    LateWriteIsBehind(h, j, w, a);
    StepTold(h, j, t, Write(w));
    StepKeeps(h, t, Write(w));
    var j', t' := Next(h, j, Write(w)).0, Step(h, t, Write(w)).0;
    hide Inv, Told, Kept, Run, Journaled, Step, Live, Behind, Used, EventUsed;
    RunTold(h, j', t', between);
    RunKeeps(h, t', between);
    StaysBehind(h, j', between, a);
    StepTold(h, Journaled(h, j', between), Run(h, t', between), Finalize(a, now));
    BehindRefuses(h, Journaled(h, j', between), a, now);
  }

  lemma BehindRefuses(h: Hashing, j: Journal, a: string, now: Time)
    requires Behind(j, a)
    ensures Next(h, j, Finalize(a, now)).1 == Raised(InvalidAttemptState)
  {
  }

  // ---------------------------------------------------------------- what a seal lists

  /** The writes of a log that were durable for one attempt, in order. */
  ghost function DurableCalls(log: seq<Commit>, a: string): seq<WriteCall> {
    if log == [] then [] else
      var c := log[|log| - 1];
      DurableCalls(log[..|log| - 1], a) + if c.attempt == a then [c.call] else []
  }

  ghost function Durable(es: seq<Entry>): seq<Commit> {
    if es == [] then [] else
      var e := es[|es| - 1];
      Durable(es[..|es| - 1]) + if e.stage == OPEN then [Commit(e.attempt, e.call)] else []
  }

  lemma {:induction false} DurableOfAttempt(es: seq<Entry>, a: string)
    ensures DurableCalls(Durable(es), a) == CallsOf(es, a)
  {
    if es != [] {
      var front, e := es[..|es| - 1], es[|es| - 1];
      DurableOfAttempt(front, a);
      var log, own := Durable(front), EntriesOf(front, a);
      assert log + [] == log && own + [] == own && DurableCalls(log, a) + [] == DurableCalls(log, a);
      assert (log + [Commit(e.attempt, e.call)])[..|log|] == log;
      assert (own + [e])[..|own|] == own;
    }
  }

  lemma ControlKeepsEntries(h: Hashing, j: Journal, op: Op)
    requires !op.Write?
    ensures NextControl(h, j, op).0.entries == j.entries
    ensures !NextControl(h, j, op).1.Wrote? && NextControl(h, j, op).1 != Raised(ResponseLoss)
  {
    hide EntriesOf, Rows, Calls, AllShown;
  }

  /** A write that was told to be durable, or would have been, is the effective entry it added. */
  lemma WriteEntry(h: Hashing, j: Journal, w: WriteCall)
    ensures var (j', r) := NextWrite(h, j, w);
            if r == Raised(ResponseLoss) || (r.Wrote? && r.committed) then
              && h.token(w.token) in j.tokens && Live(j, j.tokens[h.token(w.token)])
              && j.lives[j.tokens[h.token(w.token)]].stage == OPEN
              && j' == Note(j, Entry(j.tokens[h.token(w.token)], w, OPEN))
            else j' == j || exists e: Entry :: e.stage != OPEN && j' == Note(j, e)
  {
    hide EntriesOf, Calls, EventUsed, Used;
  }

  lemma NextLogs(h: Hashing, j: Journal, t: Tables, op: Op)
    requires Told(h, j, t) && Step(h, t, op).1 == Next(h, j, op).1
    ensures var w := DurableWrite(h, t, op);
            Durable(Next(h, j, op).0.entries) == Durable(j.entries) + if w.Some? then [w.value] else []
  {
    hide Step, NextWrite, NextControl, DossiersTold, EventsTold, Records, ActiveTold, Live;
    var (j', r) := Next(h, j, op);
    if op.Write? {
      WriteEntry(h, j, op.call);
      if h.token(op.call.token) in j.tokens {
        ActiveIff(j, t.active, j.tokens[h.token(op.call.token)]);
      }
      if j'.entries != j.entries {
        assert j'.entries[..|j.entries|] == j.entries;
      }
    } else {
      ControlKeepsEntries(h, j, op);
    }
  }

  /** The log of durable writes, which is made from replies, lists the journal's effective entries. */
  lemma {:induction false} LogTold(h: Hashing, ops: seq<Op>)
    ensures CommitLog(h, ops) == Durable(JournalOf(h, ops).entries)
  {
    if ops != [] {
      var front, op := ops[..|ops| - 1], ops[|ops| - 1];
      LogTold(h, front);
      StoreRefinesJournal(h, front, op);
      hide Run, Step, Next, Told, DurableWrite, Durable;
      NextLogs(h, JournalOf(h, front), Run(h, EMPTY, front), op);
    }
  }

  /** Where the seal `s` came from: the first entries of its attempt, among them every write of the
      attempt that took effect. */
  ghost predicate Pinned(j: Journal, a: string, s: Seal, own: seq<Entry>) {
    && a in j.lives && j.lives[a].stage != PREPARED && j.lives[a].stage != OPEN
    && own <= EntriesOf(j.entries, a) && Calls(own) == CallsOf(j.entries, a)
    && s == Seal(a, |Calls(own)|, Rows(own), AllShown(Calls(own)))
  }

  lemma NotePins(h: Hashing, j: Journal, e: Entry, a: string, s: Seal, own: seq<Entry>)
    requires Pinned(j, a, s, own) && (e.attempt == a ==> e.stage != OPEN)
    ensures Pinned(Note(j, e), a, s, own)
  {
    hide EntriesOf, Calls, Rows, AllShown, EventUsed, Ledger, Records;
    var all := EntriesOf(j.entries, a);
    NoteReads(h, j.entries, e, a);
    NoteOwn(h, a, all, e);
    assert all + [] == all && Calls(all) + [] == Calls(all);
  }

  lemma NextPins(h: Hashing, j: Journal, op: Op, a: string, s: Seal, own: seq<Entry>)
    requires Pinned(j, a, s, own)
    ensures Pinned(Next(h, j, op).0, a, s, own)
  {
    if op.Write? {
      hide Pinned, NextWrite;
      WriteEntry(h, j, op.call);
      PinnedStage(j, a, s, own);
      var j' := NextWrite(h, j, op.call).0;
      if j' != j {
        var e :| j' == Note(j, e) && (e.attempt == a ==> e.stage != OPEN);
        NotePins(h, j, e, a, s, own);
      }
    } else {
      ControlPins(h, j, op, a, s, own);
    }
  }

  lemma PinnedStage(j: Journal, a: string, s: Seal, own: seq<Entry>)
    requires Pinned(j, a, s, own)
    ensures a in j.lives && j.lives[a].stage != OPEN
  {
  }

  lemma ControlPins(h: Hashing, j: Journal, op: Op, a: string, s: Seal, own: seq<Entry>)
    requires Pinned(j, a, s, own) && !op.Write?
    ensures Pinned(NextControl(h, j, op).0, a, s, own)
  {
    hide EntriesOf, Calls, Rows, AllShown;
  }

  lemma TakenPins(h: Hashing, j: Journal, op: Op)
    requires Next(h, j, op).1.Sealed?
    ensures var s := Next(h, j, op).1.seal;
            Pinned(Next(h, j, op).0, s.attempt, s, EntriesOf(j.entries, s.attempt))
  {
    hide EntriesOf, Calls, Rows, AllShown, Used, EventUsed;
  }

  lemma {:induction false} LastSealPinned(h: Hashing, ops: seq<Op>, a: string) returns (own: seq<Entry>)
    requires LastSeal(h, ops, a).Some?
    ensures Pinned(JournalOf(h, ops), a, LastSeal(h, ops, a).value, own)
  {
    var front, op := ops[..|ops| - 1], ops[|ops| - 1];
    var r := Step(h, Run(h, EMPTY, front), op).1;
    StoreRefinesJournal(h, front, op);
    if r.Sealed? && r.seal.attempt == a {
      hide Run, Step, Next, Told, Pinned;
      TakenPins(h, JournalOf(h, front), op);
      own := EntriesOf(JournalOf(h, front).entries, a);
    } else {
      own := LastSealPinned(h, front, a);
      hide Run, Step, Next, Told, Pinned;
      NextPins(h, JournalOf(h, front), op, a, LastSeal(h, front, a).value, own);
    }
  }

  /** A seal shows the writes `calls`: one event for each, in order and numbered from one, with what the
      call said; the watermark counts them and the committed requests shown are exactly theirs. */
  ghost predicate Lists(s: Seal, calls: seq<WriteCall>) {
    && s.watermark == |s.audit| == |calls|
    && (forall i :: 0 <= i < |calls| ==>
          s.audit[i] == ObserverEvent(
            "database_write", i + 1, calls[i].eventId, calls[i].request, "record_write", "candidate_app",
            Details(calls[i].recordId, calls[i].assertedAttempt, calls[i].assertedPrincipal)))
    && (forall r :: r in s.requests && s.requests[r].state == COMMITTED
                    <==> exists i :: 0 <= i < |calls| && calls[i].request == r)
  }

  lemma PinnedLists(j: Journal, a: string, s: Seal, own: seq<Entry>)
    requires Pinned(j, a, s, own) && Distinct(j.entries)
    ensures s.attempt == a && Lists(s, CallsOf(j.entries, a))
  {
    DistinctOwn(j.entries, a);
    assert RequestsDiffer(own);
    CommittedRows(own);
    hide EntriesOf, Calls, Rows, Distinct;
  }

  /** The seal lists the writes. In every history the latest final snapshot of an attempt shows one
      event for each write that was durable for it, with what its call said. */
  lemma SealListsDurableWrites(h: Hashing, ops: seq<Op>, a: string)
    requires LastSeal(h, ops, a).Some?
    ensures LastSeal(h, ops, a).value.attempt == a
    ensures Lists(LastSeal(h, ops, a).value, DurableCalls(CommitLog(h, ops), a))
  {
    var own := LastSealPinned(h, ops, a);
    LogTold(h, ops);
    DurableOfAttempt(JournalOf(h, ops).entries, a);
    HistoryTold(h, ops);
    hide Run, Journaled, LastSeal, CommitLog, Told, JournalOf, Lists, Pinned, DurableCalls, Durable;
    PinnedLists(JournalOf(h, ops), a, LastSeal(h, ops, a).value, own);
  }

  predicate RequestsDiffer(own: seq<Entry>) {
    forall i, k :: 0 <= i < k < |own| ==> own[i].call.request != own[k].call.request
  }

  lemma {:induction false} DistinctOwn(es: seq<Entry>, a: string)
    requires Distinct(es)
    ensures RequestsDiffer(EntriesOf(es, a))
    ensures forall e :: e in EntriesOf(es, a) ==> e in es && e.attempt == a
  {
    if es != [] {
      var front, e := es[..|es| - 1], es[|es| - 1];
      DistinctOwn(front, a);
      forall i | 0 <= i < |EntriesOf(front, a)| && e.attempt == a
        ensures EntriesOf(front, a)[i].call.request != e.call.request
      {
        var k :| 0 <= k < |front| && front[k] == EntriesOf(front, a)[i];
        assert es[k] == front[k];
      }
    }
  }

  /** Among entries with different requests the committed rows are those of the effective writes. */
  lemma {:induction false} CommittedRows(own: seq<Entry>)
    requires RequestsDiffer(own)
    ensures forall r :: r in Rows(own) ==> exists i :: 0 <= i < |own| && own[i].call.request == r
    ensures forall r :: r in Rows(own) && Rows(own)[r].state == COMMITTED
                        <==> exists i :: 0 <= i < |Calls(own)| && Calls(own)[i].request == r
  {
    if own != [] {
      var front, e := own[..|own| - 1], own[|own| - 1];
      CommittedRows(front);
      assert e.call.request !in Rows(front);
      var calls := Calls(front);
      assert e.stage == OPEN ==> Calls(own)[|calls|] == e.call;
      assert forall i :: 0 <= i < |calls| ==> Calls(own)[i] == calls[i];
      assert forall i :: 0 <= i < |front| ==> own[i] == front[i];
    }
  }
}
