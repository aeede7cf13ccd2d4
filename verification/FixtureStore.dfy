/** The fixture store itself: tables as fields, every transaction carried out statement by
    statement between BEGIN IMMEDIATE and COMMIT, and undone by ROLLBACK when a statement or
    an injected fault raises. Each method is proved to be one atomic step of `StoreSpec`, to keep
    the store invariant, and the whole class to run as the transition system does. */
module FixtureStores {
  import opened Options
  import opened AuditLedger
  import opened StoreSpec
  import opened StoreRuns
  import opened StoreJournal
  import opened StoreRefinement

  class FixtureStore {
    const hashing: Hashing
    var dossiers: map<string, Dossier>
    var credentials: map<string, string>
    var active: Option<string>
    var records: map<string, Record>
    var eventIds: set<string>

    function Db(): Tables
      reads this
    {
      Tables(dossiers, credentials, active, records, eventIds)
    }

    /** The store invariant: exact active pointer, intact ledgers, commits matching audit rows,
        consistent seals, and no admitted row left behind. */
    ghost predicate Valid()
      reads this
    {
      Inv(hashing, Db())
    }

    constructor (hashing: Hashing)
      ensures this.hashing == hashing && Db() == EMPTY && Valid()
    {
      this.hashing := hashing;
      dossiers, credentials, active := map[], map[], None;
      records, eventIds := map[], {};
    }

    /** What a transaction that starts from a valid store leads to is valid. */
    lemma KeepsValid(op: Op)
      ensures Valid() ==> Inv(hashing, Step(hashing, Db(), op).0)
    {
      hide Inv, Step;
      if Valid() {
        StepKeeps(hashing, Db(), op);
      }
    }

    /** ROLLBACK to the tables saved at BEGIN IMMEDIATE. */
    method Rollback(saved: Tables)
      modifies this
      ensures Db() == saved
    {
      dossiers, credentials, active := saved.dossiers, saved.credentials, saved.active;
      records, eventIds := saved.records, saved.eventIds;
    }

    /** UPDATE of the attempt row. */
    method UpdateRow(a: string, x: Attempt)
      requires a in dossiers
      modifies this`dossiers
      ensures dossiers == old(dossiers)[a := old(dossiers)[a].(row := x)]
    {
      dossiers := dossiers[a := dossiers[a].(row := x)];
    }

    method Bootstrap() returns (r: Reply)
      modifies this
      ensures (Db(), r) == BootstrapStep(old(Db()))
      ensures old(Valid()) ==> Valid()
    {
      hide Inv;
      KeepsValid(Op.Bootstrap);
      if active.Some? {
        var a := active.value;
        if a !in dossiers {
          return Raised(MissingRecord);
        }
        var state := dossiers[a].row.state;
        if state in {PREPARED, OPEN, FENCED} {
          UpdateRow(a, dossiers[a].row.(
            state := RECOVERY_REQUIRED, auditComplete := false,
            finalWatermark := None, finalRequestCount := None));
        } else if state in {FINALIZED, ABORTED} {
          active := None;
        }
      }
      return Done;
    }

    method CreateAttempt(attempt: string, token: string, now: Time) returns (r: Reply)
      modifies this
      ensures (Db(), r) == CreateStep(hashing, old(Db()), attempt, token, now)
      ensures old(Valid()) ==> Valid()
    {
      hide Inv;
      KeepsValid(Create(attempt, token, now));
      if active.Some? {
        return Raised(ActiveAttemptExists);
      }
      var credential := hashing.token(token);
      if attempt in dossiers || credential in credentials {
        return Raised(ConstraintViolation);
      }
      dossiers := dossiers[attempt := Dossier(NewAttempt(credential, now), map[], [], 0)];
      credentials := credentials[credential := attempt];
      active := Some(attempt);
      return Done;
    }

    /** The guard every control transaction starts with. */
    predicate RequireActiveState(attempt: string, expected: AttemptState)
      reads this
      ensures RequireActiveState(attempt, expected) == IsActiveIn(Db(), attempt, expected)
    {
      active == Some(attempt) && attempt in dossiers && dossiers[attempt].row.state == expected
    }

    method OpenAttempt(attempt: string, now: Time) returns (r: Reply)
      modifies this
      ensures (Db(), r) == OpenStep(old(Db()), attempt, now)
      ensures old(Valid()) ==> Valid()
    {
      hide Inv;
      KeepsValid(Open(attempt, now));
      if !RequireActiveState(attempt, PREPARED) {
        return Raised(InvalidAttemptState);
      }
      UpdateRow(attempt, dossiers[attempt].row.(state := OPEN, openedAt := Some(now)));
      return Done;
    }

    method CloseAttempt(attempt: string, now: Time) returns (r: Reply)
      modifies this
      ensures (Db(), r) == CloseStep(old(Db()), attempt, now)
      ensures old(Valid()) ==> Valid()
    {
      hide Inv;
      KeepsValid(Close(attempt, now));
      if !RequireActiveState(attempt, OPEN) {
        return Raised(InvalidAttemptState);
      }
      UpdateRow(attempt, dossiers[attempt].row.(state := FENCED, fencedAt := Some(now)));
      return Done;
    }

    method AbortRecoveryAttempt(attempt: string, now: Time) returns (r: Reply)
      modifies this
      ensures (Db(), r) == AbortStep(old(Db()), attempt, now)
      ensures old(Valid()) ==> Valid()
    {
      hide Inv;
      KeepsValid(AbortRecovery(attempt, now));
      if !RequireActiveState(attempt, RECOVERY_REQUIRED) {
        return Raised(InvalidAttemptState);
      }
      var d := dossiers[attempt];
      dossiers := dossiers[attempt := d.(requests := FailAdmitted(d.requests, now))];
      UpdateRow(attempt, d.row.(
        state := ABORTED, auditComplete := false, finalWatermark := None, finalRequestCount := None));
      active := None;
      assert dossiers == old(dossiers)[attempt := dossiers[attempt]];
      return Done;
    }

    /** Appends one chained audit row and advances the watermark; nothing changes when the
        insert violates a key of the audit table. */
    method AppendAuditEvent(a: string, w: WriteCall) returns (seqNo: Option<nat>)
      requires a in dossiers
      modifies this`dossiers, this`eventIds
      ensures var d := old(dossiers)[a];
              if AuditInsertConflicts(old(eventIds), d.audit, d.row, w)
              then seqNo == None && dossiers == old(dossiers) && eventIds == old(eventIds)
              else
                && seqNo == Some(d.row.watermark + 1)
                && eventIds == old(eventIds) + {w.eventId}
                && dossiers == old(dossiers)[a := d.(
                     audit := InsertBySeq(d.audit, AuditRow(hashing, a, d.row, d.audit, w)),
                     row := d.row.(watermark := d.row.watermark + 1))]
    {
      var d := dossiers[a];
      var next := d.row.watermark + 1;
      var previousHash := HashAt(d.audit, next - 1);
      var payload := Payload(a, next, w.eventId, "database_write", w.request, "record_write", d.row.principal,
                             Details(w.recordId, w.assertedAttempt, w.assertedPrincipal), w.auditedAt, previousHash);
      if w.eventId in eventIds || SeqTaken(d.audit, next) {
        return None;
      }
      dossiers := dossiers[a := d.(audit := InsertBySeq(d.audit, Event(payload, hashing.payload(payload))))];
      eventIds := eventIds + {w.eventId};
      UpdateRow(a, d.row.(watermark := next));
      return Some(next);
    }

    /** INSERT of a request row, or UPDATE of one. */
    method PutRequest(a: string, r: string, q: Request)
      requires a in dossiers
      modifies this`dossiers
      ensures dossiers == old(dossiers)[a := old(dossiers)[a].(requests := old(dossiers)[a].requests[r := q])]
    {
      var d := dossiers[a];
      dossiers := dossiers[a := d.(requests := d.requests[r := q])];
    }

    /** The admitted half of a business write. The row is first admitted, then the record is
        changed; a fault or a constraint violation up to the commit rolls every statement back. */
    method PerformAdmitted(a: string, w: WriteCall) returns (r: Reply)
      requires a in dossiers && w.request !in dossiers[a].requests
      modifies this
      ensures (Db(), r) == AdmittedStep(hashing, old(Db()), a, w)
    {
      hide InsertBySeq, AuditRow, AuditInsertConflicts;
      var saved := Db();
      PutRequest(a, w.request, AdmittedRow(w));
      records := records[w.recordId := Record(w.value, a, w.request, w.now)];
      if w.fault == Some(AuditFailure) {
        Rollback(saved);
        return Raised(InjectedFault);
      }
      r := AuditAndCommit(a, w, saved);
    }

    /** The tables after the first two statements of an admitted write. */
    ghost predicate Admitted(saved: Tables, a: string, w: WriteCall)
      requires a in saved.dossiers
      reads this
    {
      var d := saved.dossiers[a];
      && dossiers == saved.dossiers[a := d.(requests := d.requests[w.request := AdmittedRow(w)])]
      && records == saved.records[w.recordId := Record(w.value, a, w.request, w.now)]
      && credentials == saved.credentials && active == saved.active && eventIds == saved.eventIds
    }

    /** The last half: the audit event is chained, the row committed, and the transaction with it. */
    method AuditAndCommit(a: string, w: WriteCall, saved: Tables) returns (r: Reply)
      requires a in saved.dossiers && w.request !in saved.dossiers[a].requests && Admitted(saved, a, w)
      requires w.fault != Some(AuditFailure)
      modifies this
      ensures (Db(), r) == AdmittedStep(hashing, saved, a, w)
    {
      hide InsertBySeq, AuditRow, AuditInsertConflicts;
      var seqNo := AppendAuditEvent(a, w);
      if seqNo.None? {
        Rollback(saved);
        return Raised(ConstraintViolation);
      }
      PutRequest(a, w.request, dossiers[a].requests[w.request].(state := COMMITTED, finishedAt := Some(w.finishedAt)));
      if w.fault == Some(CrashBeforeCommit) {
        Rollback(saved);
        return Raised(InjectedFault);
      }
      assert dossiers[a] == CommitIn(hashing, a, saved.dossiers[a], w);
      assert Db() == CommitWrite(hashing, saved, a, w);
      if w.fault == Some(LostResponse) {
        return Raised(ResponseLoss);
      }
      return Wrote(a, w.request, true, seqNo);
    }

    /** The attempt that the token names, when it is the active one. */
    predicate Names(w: WriteCall, a: string)
      reads this
    {
      active == Some(a) && hashing.token(w.token) in credentials && credentials[hashing.token(w.token)] == a
    }

    /** What a write leaves behind in a valid store. */
    lemma LeavesRow(w: WriteCall, a: string)
      requires Valid() && Names(w, a)
      ensures var (t', r) := WriteStep(hashing, Db(), w);
              a in dossiers && a in t'.dossiers && LeavesItsRow(Db(), a, w, t', r)
    {
      ActiveDossier(hashing, Db());
      hide *;
      ActiveWriteLeavesRow(hashing, Db(), a, w);
    }

    method BusinessWrite(w: WriteCall) returns (r: Reply)
      modifies this
      ensures (Db(), r) == WriteStep(hashing, old(Db()), w)
      ensures old(Valid()) ==> Valid()
      ensures forall a :: old(Valid() && Names(w, a)) ==>
                a in old(dossiers) && a in dossiers && LeavesItsRow(old(Db()), a, w, Db(), r)
    {
      hide Inv, LeavesItsRow;
      KeepsValid(Write(w));
      forall a | Valid() && Names(w, a)
        ensures var (t', q) := WriteStep(hashing, Db(), w);
                a in dossiers && a in t'.dossiers && LeavesItsRow(Db(), a, w, t', q)
      {
        hide WriteStep;
        LeavesRow(w, a);
      }
      var credential := hashing.token(w.token);
      if credential !in credentials || credentials[credential] !in dossiers {
        return Raised(InvalidCredential);
      }
      var a := credentials[credential];
      if active != Some(a) {
        return Raised(StaleCredential);
      }
      if w.request in dossiers[a].requests {
        return Raised(RequestConflict);
      }
      if dossiers[a].row.state != OPEN {
        PutRequest(a, w.request, RejectedRow(w, dossiers[a].row.state));
        return Wrote(a, w.request, false, None);
      }
      r := PerformAdmitted(a, w);
    }

    method ResetObserverCursor() returns (r: Reply)
      modifies this
      ensures (Db(), r) == ResetCursorStep(old(Db()))
      ensures old(Valid()) ==> Valid()
    {
      hide Inv;
      KeepsValid(ResetCursor);
      if active.None? {
        return Raised(InvalidAttemptState);
      }
      var a := active.value;
      if a !in dossiers {
        return Raised(MissingRecord);
      }
      var n := dossiers[a].row.watermark;
      dossiers := dossiers[a := dossiers[a].(cursor := n)];
      return CursorAt(n);
    }

    method TakeFinalSnapshot(attempt: string) returns (r: Reply)
      modifies this
      ensures (Db(), r) == FinalSnapshotStep(hashing, old(Db()), attempt)
      ensures old(Valid()) ==> Valid()
    {
      hide Inv;
      KeepsValid(FinalSnapshot(attempt));
      if !RequireActiveState(attempt, FENCED) {
        return Raised(InvalidAttemptState);
      }
      var d := dossiers[attempt];
      if !Drained(d.requests) {
        return Raised(DrainIncomplete);
      }
      var fault := ValidateLedger(hashing.payload, d.row.watermark, d.audit);
      if fault.Some? {
        return Raised(LedgerIntegrityError);
      }
      UpdateRow(attempt, d.row.(
        auditComplete := true, finalWatermark := Some(d.row.watermark), finalRequestCount := Some(|d.requests|)));
      return Sealed(Seal(attempt, d.row.watermark, d.requests, ObserveAll(d.audit)));
    }

    method FinalizeAttempt(attempt: string, now: Time) returns (r: Reply)
      modifies this
      ensures (Db(), r) == FinalizeStep(hashing, old(Db()), attempt, now)
      ensures old(Valid()) ==> Valid()
    {
      hide Inv;
      KeepsValid(Finalize(attempt, now));
      if !RequireActiveState(attempt, FENCED) {
        return Raised(InvalidAttemptState);
      }
      var d := dossiers[attempt];
      if !d.row.auditComplete {
        return Raised(InvalidAttemptState);
      }
      if !Drained(d.requests) {
        return Raised(DrainIncomplete);
      }
      if d.row.finalRequestCount.None? || d.row.finalRequestCount.value != |d.requests| {
        return Raised(InvalidAttemptState);
      }
      if d.row.finalWatermark.None? || d.row.finalWatermark.value != d.row.watermark {
        return Raised(InvalidAttemptState);
      }
      var fault := ValidateLedger(hashing.payload, d.row.watermark, d.audit);
      if fault.Some? {
        return Raised(LedgerIntegrityError);
      }
      UpdateRow(attempt, d.row.(state := FINALIZED, finalizedAt := Some(now)));
      active := None;
      return Done;
    }

    /** Any transaction of the store. */
    method Perform(op: Op) returns (r: Reply)
      modifies this
      ensures (Db(), r) == Step(hashing, old(Db()), op)
      ensures old(Valid()) ==> Valid()
    {
      hide Valid;
      match op
      case Bootstrap => r := Bootstrap();
      case Create(a, token, now) => r := CreateAttempt(a, token, now);
      case Open(a, now) => r := OpenAttempt(a, now);
      case Close(a, now) => r := CloseAttempt(a, now);
      case AbortRecovery(a, now) => r := AbortRecoveryAttempt(a, now);
      case Write(w) => r := BusinessWrite(w);
      case ResetCursor => r := ResetObserverCursor();
      case FinalSnapshot(a) => r := TakeFinalSnapshot(a);
      case Finalize(a, now) => r := FinalizeAttempt(a, now);
    }

    /** A whole history on the object is the run of the transition system, so what is proved of
        runs holds of the object: on a new one, the tables and the replies are those of the journal. */
    method PerformAll(ops: seq<Op>) returns (replies: seq<Reply>)
      modifies this
      ensures Db() == Run(hashing, old(Db()), ops) && |replies| == |ops|
      ensures forall i :: 0 <= i < |ops| ==> replies[i] == Step(hashing, Run(hashing, old(Db()), ops[..i]), ops[i]).1
      ensures old(Valid()) ==> Valid()
      ensures old(Db()) == EMPTY ==>
                && Told(hashing, JournalOf(hashing, ops), Db())
                && forall i :: 0 <= i < |ops| ==> replies[i] == Next(hashing, JournalOf(hashing, ops[..i]), ops[i]).1
    {
      hide Step, Valid, Told, Next, JournalOf;
      replies := [];
      for i := 0 to |ops|
        invariant Db() == Run(hashing, old(Db()), ops[..i]) && |replies| == i
        invariant forall j :: 0 <= j < i ==> replies[j] == Step(hashing, Run(hashing, old(Db()), ops[..j]), ops[j]).1
        invariant old(Valid()) ==> Valid()
      {
        assert ops[..i + 1][..i] == ops[..i];
        var r := Perform(ops[i]);
        replies := replies + [r];
      }
      assert ops[..|ops|] == ops;
      HistoryTold(hashing, ops);
      forall i | 0 <= i < |ops|
        ensures Step(hashing, Run(hashing, EMPTY, ops[..i]), ops[i]).1
                == Next(hashing, JournalOf(hashing, ops[..i]), ops[i]).1
      {
        StoreRefinesJournal(hashing, ops[..i], ops[i]);
      }
    }
  }
}
