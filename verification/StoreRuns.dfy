/** What every history of store transactions keeps: the store invariant, the growth of each
    attempt's evidence, the meaning of the two sealing steps, at-most-once effects, restarts,
    and the reads that are not transactions. */
module StoreRuns {
  import opened Options
  import opened AuditLedger
  import opened StoreSpec

  // ---------------------------------------------------------------- the invariant

  ghost predicate Audited(events: seq<Event>, r: string) {
    exists i :: 0 <= i < |events| && events[i].payload.requestId == r
  }

  /** Committed requests and audit events of one attempt name each other, one to one. */
  ghost predicate CommitsMatchAudit(rows: map<string, Request>, events: seq<Event>) {
    && (forall i :: 0 <= i < |events| ==>
          events[i].payload.requestId in rows && rows[events[i].payload.requestId].state == COMMITTED)
    && (forall i, j :: 0 <= i < j < |events| ==> events[i].payload.requestId != events[j].payload.requestId)
    && (forall r :: r in rows && rows[r].state == COMMITTED ==> Audited(events, r))
  }

  ghost predicate SealConsistent(x: Attempt, rows: map<string, Request>) {
    && (x.auditComplete ==>
          && (x.state == FENCED || x.state == FINALIZED)
          && x.finalWatermark == Some(x.watermark)
          && x.finalRequestCount.Some? && x.finalRequestCount.value <= |rows|)
    && (x.state == FINALIZED ==> x.auditComplete && x.finalRequestCount == Some(|rows|))
  }

  ghost predicate NothingAdmitted(rows: map<string, Request>) {
    forall r :: r in rows ==> rows[r].state == COMMITTED || rows[r].state == REJECTED
  }

  /** One attempt's evidence: no admitted row survives a transaction, the ledger is an intact
      chain of exactly `watermark` rows of this attempt, and it matches the committed requests. */
  ghost predicate DossierOk(h: Hashing, a: string, d: Dossier) {
    && NothingAdmitted(d.requests)
    && LedgerIntact(h.payload, d.row.watermark, d.audit)
    && (forall i :: 0 <= i < |d.audit| ==> d.audit[i].payload.attemptId == a)
    && CommitsMatchAudit(d.requests, d.audit)
    && SealConsistent(d.row, d.requests)
    && d.cursor <= d.row.watermark
  }

  /** The active pointer names exactly the attempt that is neither finalized nor aborted. */
  ghost predicate ActiveExact(t: Tables) {
    && (t.active.Some? ==> t.active.value in t.dossiers)
    && (forall a :: a in t.dossiers ==> (t.active == Some(a) <==> !Terminal(t.dossiers[a].row.state)))
  }

  ghost predicate CredentialsOk(t: Tables) {
    forall c :: c in t.credentials ==> t.credentials[c] in t.dossiers
  }

  ghost predicate Committed(t: Tables, a: string, r: string) {
    a in t.dossiers && r in t.dossiers[a].requests && t.dossiers[a].requests[r].state == COMMITTED
  }

  /** Every record was last written by a committed request. */
  ghost predicate RecordsOk(t: Tables) {
    forall k :: k in t.records ==> Committed(t, t.records[k].byAttempt, t.records[k].byRequest)
  }

  ghost predicate Inv(h: Hashing, t: Tables) {
    && ActiveExact(t)
    && CredentialsOk(t)
    && RecordsOk(t)
    && forall a :: a in t.dossiers ==> DossierOk(h, a, t.dossiers[a])
  }

  // ---------------------------------------------------------------- one dossier at a time

  /** In an intact ledger the row to link to is the last one, and the next number is free. */
  lemma NextRowFits(h: Hashing, a: string, d: Dossier, w: WriteCall)
    requires LedgerIntact(h.payload, d.row.watermark, d.audit)
    ensures !SeqTaken(d.audit, d.row.watermark + 1)
    ensures var e := AuditRow(h, a, d.row, d.audit, w);
            InsertBySeq(d.audit, e) == d.audit + [e] && ValidChain(h.payload, d.audit + [e])
  {
    forall i | 0 <= i < |d.audit| ensures d.audit[i].payload.seqNo == i + 1 {
      assert RowLinked(h.payload, d.audit, i);
    }
    ChainAppend(h.payload, d.audit, AuditRow(h, a, d.row, d.audit, w));
  }

  lemma CommitKeepsMatch(rows: map<string, Request>, events: seq<Event>, e: Event, w: WriteCall)
    requires CommitsMatchAudit(rows, events) && w.request !in rows && e.payload.requestId == w.request
    ensures CommitsMatchAudit(rows[w.request := CommittedRow(w)], events + [e])
  {
    var rows', events' := rows[w.request := CommittedRow(w)], events + [e];
    forall r | r in rows' && rows'[r].state == COMMITTED ensures Audited(events', r) {
      if r == w.request {
        assert events'[|events|].payload.requestId == r;
      } else {
        var i :| 0 <= i < |events| && events[i].payload.requestId == r;
        assert events'[i].payload.requestId == r;
      }
    }
  }

  lemma CommitDossier(h: Hashing, a: string, d: Dossier, w: WriteCall)
    requires DossierOk(h, a, d) && d.row.state == OPEN && w.request !in d.requests
    ensures DossierOk(h, a, CommitIn(h, a, d, w))
    ensures CommitIn(h, a, d, w).audit == d.audit + [AuditRow(h, a, d.row, d.audit, w)]
  {
    NextRowFits(h, a, d, w);
    CommitKeepsMatch(d.requests, d.audit, AuditRow(h, a, d.row, d.audit, w), w);
    hide CommitsMatchAudit, ValidChain;
  }

  lemma RejectKeepsMatch(rows: map<string, Request>, events: seq<Event>, q: Request, w: WriteCall)
    requires CommitsMatchAudit(rows, events) && w.request !in rows && q.state == REJECTED
    ensures CommitsMatchAudit(rows[w.request := q], events)
  {
  }

  lemma RejectDossier(h: Hashing, a: string, d: Dossier, w: WriteCall)
    requires DossierOk(h, a, d) && d.row.state != FINALIZED && w.request !in d.requests
    ensures DossierOk(h, a, RejectIn(d, w))
  {
    RejectKeepsMatch(d.requests, d.audit, RejectedRow(w, d.row.state), w);
    assert |RejectIn(d, w).requests| == |d.requests| + 1;
    hide ValidChain, CommitsMatchAudit;
  }

  /** Nothing is left to fail when a recovery is aborted. */
  lemma AbortFailsNothing(rows: map<string, Request>, now: Time)
    requires NothingAdmitted(rows)
    ensures FailAdmitted(rows, now) == rows
  {
  }

  // ---------------------------------------------------------------- one step at a time

  /** The active attempt's dossier is the only one a step after creation may change. */
  lemma PutKeeps(h: Hashing, t: Tables, t': Tables, a: string)
    requires Inv(h, t) && t.active == Some(a) && a in t'.dossiers
    requires t'.dossiers == t.dossiers[a := t'.dossiers[a]]
    requires t'.credentials == t.credentials
    requires t'.active == if Terminal(t'.dossiers[a].row.state) then None else Some(a)
    requires DossierOk(h, a, t'.dossiers[a])
    requires forall r :: Committed(t, a, r) ==> Committed(t', a, r)
    requires forall k :: k in t'.records ==>
               (k in t.records && t'.records[k] == t.records[k])
               || Committed(t', t'.records[k].byAttempt, t'.records[k].byRequest)
    ensures Inv(h, t')
  {
    hide DossierOk;
    assert forall b, r :: Committed(t, b, r) ==> Committed(t', b, r);
  }

  lemma ActiveDossier(h: Hashing, t: Tables)
    requires Inv(h, t) && t.active.Some?
    ensures t.active.value in t.dossiers
    ensures var d := t.dossiers[t.active.value];
            DossierOk(h, t.active.value, d) && SealConsistent(d.row, d.requests) && !Terminal(d.row.state)
            && NothingAdmitted(d.requests) && LedgerIntact(h.payload, d.row.watermark, d.audit)
  {
    hide CommitsMatchAudit, RecordsOk, CredentialsOk, NothingAdmitted, LedgerIntact, SealConsistent;
  }

  lemma RowDossier(h: Hashing, a: string, d: Dossier, x: Attempt)
    requires DossierOk(h, a, d) && x.watermark == d.row.watermark && SealConsistent(x, d.requests)
    ensures DossierOk(h, a, d.(row := x))
  {
    hide CommitsMatchAudit, NothingAdmitted, ValidChain, SealConsistent;
  }

  /** Rewriting the active attempt's row, its watermark apart, keeps everything. */
  lemma PutRowKeeps(h: Hashing, t: Tables, a: string, x: Attempt, active: Option<string>)
    requires Inv(h, t) && t.active == Some(a) && a in t.dossiers
    requires x.watermark == t.dossiers[a].row.watermark && SealConsistent(x, t.dossiers[a].requests)
    requires active == if Terminal(x.state) then None else Some(a)
    ensures Inv(h, PutRow(t, a, x).(active := active))
  {
    RowDossier(h, a, t.dossiers[a], x);
    hide DossierOk, SealConsistent, RecordsOk, CredentialsOk, ActiveExact;
    PutKeeps(h, t, PutRow(t, a, x).(active := active), a);
  }

  lemma CommitWriteKeeps(h: Hashing, t: Tables, a: string, w: WriteCall)
    requires Inv(h, t) && t.active == Some(a) && a in t.dossiers
    requires t.dossiers[a].row.state == OPEN && w.request !in t.dossiers[a].requests
    ensures Inv(h, CommitWrite(h, t, a, w))
  {
    CommitDossier(h, a, t.dossiers[a], w);
    hide DossierOk, CredentialsOk, ActiveExact, RecordsOk, AuditRow, InsertBySeq;
    var after := CommitWrite(h, t, a, w);
    assert Committed(after, a, w.request);
    assert forall r :: Committed(t, a, r) ==> Committed(after, a, r);
    hide Inv, Committed;
    PutKeeps(h, t, after, a);
  }

  lemma RejectWriteKeeps(h: Hashing, t: Tables, a: string, w: WriteCall)
    requires Inv(h, t) && t.active == Some(a) && a in t.dossiers
    requires !Terminal(t.dossiers[a].row.state) && w.request !in t.dossiers[a].requests
    ensures Inv(h, t.(dossiers := t.dossiers[a := RejectIn(t.dossiers[a], w)]))
  {
    RejectDossier(h, a, t.dossiers[a], w);
    hide Inv, DossierOk, CredentialsOk, ActiveExact, RecordsOk, RejectedRow;
    PutKeeps(h, t, t.(dossiers := t.dossiers[a := RejectIn(t.dossiers[a], w)]), a);
  }

  lemma WriteKeeps(h: Hashing, t: Tables, w: WriteCall)
    requires Inv(h, t)
    ensures Inv(h, WriteStep(h, t, w).0)
  {
    hide DossierOk, SealConsistent, NothingAdmitted, LedgerIntact, RecordsOk, CredentialsOk, ActiveExact;
    var c := h.token(w.token);
    if c in t.credentials && t.active == Some(t.credentials[c]) {
      var a := t.credentials[c];
      ActiveDossier(h, t);
      hide Inv, CommitWrite, RejectIn, AuditInsertConflicts;
      if w.request !in t.dossiers[a].requests {
        if t.dossiers[a].row.state == OPEN {
          CommitWriteKeeps(h, t, a, w);
        } else {
          RejectWriteKeeps(h, t, a, w);
        }
      }
    }
  }

  lemma SealedRowConsistent(x: Attempt, rows: map<string, Request>)
    requires SealConsistent(x, rows) && !Terminal(x.state)
    ensures x.state == FENCED ==>
              var counted := x.(finalWatermark := Some(x.watermark), finalRequestCount := Some(|rows|));
              var sealed := counted.(auditComplete := true);
              SealConsistent(sealed, rows)
    ensures forall s, o, f ::
              (s == OPEN && x.state == PREPARED) || (s == FENCED && x.state == OPEN) ==>
                SealConsistent(x.(state := s, openedAt := o, fencedAt := f), rows)
    ensures forall s :: s == RECOVERY_REQUIRED || s == ABORTED ==> SealConsistent(Unseal(x, s), rows)
    ensures forall f :: x.auditComplete && x.finalRequestCount == Some(|rows|) ==>
              SealConsistent(x.(state := FINALIZED, finalizedAt := f), rows)
  {
  }

  lemma ControlKeeps(h: Hashing, t: Tables, op: Op)
    requires Inv(h, t) && (op.Bootstrap? || op.Open? || op.Close? || op.FinalSnapshot? || op.Finalize?)
    ensures Inv(h, Step(h, t, op).0)
  {
    var t' := Step(h, t, op).0;
    if t' != t {
      ActiveDossier(h, t);
      var a := t.active.value;
      SealedRowConsistent(t.dossiers[a].row, t.dossiers[a].requests);
      hide DossierOk, SealConsistent, LedgerIntact, Inv;
      PutRowKeeps(h, t, a, t'.dossiers[a].row, t'.active);
    }
  }

  lemma AbortKeeps(h: Hashing, t: Tables, a: string, now: Time)
    requires Inv(h, t)
    ensures Inv(h, AbortStep(t, a, now).0)
  {
    if IsActiveIn(t, a, RECOVERY_REQUIRED) {
      ActiveDossier(h, t);
      var d := t.dossiers[a];
      SealedRowConsistent(d.row, d.requests);
      AbortFailsNothing(d.requests, now);
      hide DossierOk, SealConsistent, Inv, FailAdmitted, NothingAdmitted;
      PutRowKeeps(h, t, a, Unseal(d.row, ABORTED), None);
    }
  }

  lemma CursorKeeps(h: Hashing, t: Tables)
    requires Inv(h, t)
    ensures Inv(h, ResetCursorStep(t).0)
  {
    var t' := ResetCursorStep(t).0;
    if t' != t {
      ActiveDossier(h, t);
      assert DossierOk(h, t.active.value, t'.dossiers[t.active.value]) by {
        hide CommitsMatchAudit, ValidChain, NothingAdmitted, SealConsistent, RecordsOk, CredentialsOk, ActiveExact;
      }
      hide DossierOk, CredentialsOk, RecordsOk, ActiveExact;
      PutKeeps(h, t, t', t.active.value);
    }
  }

  lemma FreshDossier(h: Hashing, a: string, credential: string, now: Time)
    ensures DossierOk(h, a, Dossier(NewAttempt(credential, now), map[], [], 0))
  {
  }

  lemma CreateKeeps(h: Hashing, t: Tables, a: string, token: string, now: Time)
    requires Inv(h, t)
    ensures Inv(h, CreateStep(h, t, a, token, now).0)
  {
    hide DossierOk;
    var t' := CreateStep(h, t, a, token, now).0;
    if t' != t {
      FreshDossier(h, a, h.token(token), now);
      assert RecordsOk(t') by {
        hide ActiveExact, CredentialsOk;
        assert forall b, r :: Committed(t, b, r) ==> Committed(t', b, r);
      }
      hide RecordsOk;
    }
  }

  lemma StepKeeps(h: Hashing, t: Tables, op: Op)
    requires Inv(h, t)
    ensures Inv(h, Step(h, t, op).0)
  {
    match op
    case Create(a, token, now) => CreateKeeps(h, t, a, token, now);
    case Write(w) => WriteKeeps(h, t, w);
    case AbortRecovery(a, now) => AbortKeeps(h, t, a, now);
    case ResetCursor => CursorKeeps(h, t);
    case _ => ControlKeeps(h, t, op);
  }

  /** The invariant holds after every history that starts where it holds. */
  lemma {:induction false} RunKeeps(h: Hashing, t: Tables, ops: seq<Op>)
    requires Inv(h, t)
    ensures Inv(h, Run(h, t, ops))
  {
    if ops != [] {
      RunKeeps(h, t, ops[..|ops| - 1]);
      hide Inv, Step;
      StepKeeps(h, Run(h, t, ops[..|ops| - 1]), ops[|ops| - 1]);
    }
  }

  /** In particular it holds after every history of a new database. */
  lemma EveryHistoryKeepsInv(h: Hashing, ops: seq<Op>)
    ensures Inv(h, Run(h, EMPTY, ops))
  {
    RunKeeps(h, EMPTY, ops);
  }
}
