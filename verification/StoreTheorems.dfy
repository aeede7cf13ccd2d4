/** What the store promises about whole histories. Every theorem is about `Run(h, EMPTY, ops)`
    for an arbitrary list `ops` of transactions: control calls, writes, retries, injected
    faults, lost responses and restarts in any order. */
module StoreTheorems {
  import opened Options
  import opened AuditLedger
  import opened StoreSpec
  import opened StoreRuns

  // ---------------------------------------------------------------- growth of evidence

  /** Request rows are never changed or removed, the ledger is only appended to, and the
      evidence of a finalized or aborted attempt does not change at all. */
  ghost predicate Grows(d: Dossier, d': Dossier) {
    && (forall r :: r in d.requests ==> r in d'.requests && d'.requests[r] == d.requests[r])
    && d.audit <= d'.audit
    && (Terminal(d.row.state) ==> d' == d)
  }

  lemma GrowsReflexive(d: Dossier)
    ensures Grows(d, d)
  {
  }

  lemma GrowsTransitive(d: Dossier, e: Dossier, f: Dossier)
    requires Grows(d, e) && Grows(e, f)
    ensures Grows(d, f)
  {
  }

  /** How a control transaction may rewrite the active attempt's row; `n` counts its requests. */
  ghost predicate RowMoves(x: Attempt, op: Op, n: nat, y: Attempt) {
    match op
    case Bootstrap => x.state in {PREPARED, OPEN, FENCED} && y == Unseal(x, RECOVERY_REQUIRED)
    case Open(_, now) => x.state == PREPARED && y == x.(state := OPEN, openedAt := Some(now))
    case Close(_, now) => x.state == OPEN && y == x.(state := FENCED, fencedAt := Some(now))
    case AbortRecovery(_, _) => x.state == RECOVERY_REQUIRED && y == Unseal(x, ABORTED)
    case ResetCursor => y == x
    case FinalSnapshot(_) =>
      x.state == FENCED
      && y == x.(auditComplete := true, finalWatermark := Some(x.watermark), finalRequestCount := Some(n))
    case Finalize(_, now) =>
      x.state == FENCED && x.auditComplete && x.finalRequestCount == Some(n)
      && y == x.(state := FINALIZED, finalizedAt := Some(now))
    case _ => false
  }

  /** What one transaction may do to the dossier of the active attempt. */
  ghost predicate Moves(h: Hashing, a: string, d: Dossier, op: Op, d': Dossier) {
    if op.Write? then
      && op.call.request !in d.requests
      && d' == if d.row.state == OPEN then CommitIn(h, a, d, op.call) else RejectIn(d, op.call)
    else
      d'.requests == d.requests && d'.audit == d.audit && RowMoves(d.row, op, |d.requests|, d'.row)
  }

  lemma WriteShape(h: Hashing, t: Tables, w: WriteCall, a: string)
    requires a in t.dossiers
    ensures var t' := WriteStep(h, t, w).0;
            a in t'.dossiers
            && (t'.dossiers[a] == t.dossiers[a]
                || (t.active == Some(a) && Moves(h, a, t.dossiers[a], Write(w), t'.dossiers[a])))
  {
    hide CommitIn, RejectIn, AuditInsertConflicts;
  }

  lemma ControlShape(h: Hashing, t: Tables, op: Op, a: string)
    requires a in t.dossiers && !op.Write? && NothingAdmitted(t.dossiers[a].requests)
    ensures var t' := Step(h, t, op).0;
            a in t'.dossiers
            && (t'.dossiers[a] == t.dossiers[a]
                || (t.active == Some(a) && Moves(h, a, t.dossiers[a], op, t'.dossiers[a])))
  {
    if op.AbortRecovery? {
      AbortFailsNothing(t.dossiers[a].requests, op.now);
    }
    hide FailAdmitted, NothingAdmitted, LedgerIntact, Drained;
  }

  lemma StepShape(h: Hashing, t: Tables, op: Op, a: string)
    requires Inv(h, t) && a in t.dossiers
    ensures var t' := Step(h, t, op).0;
            a in t'.dossiers
            && (t'.dossiers[a] == t.dossiers[a]
                || (t.active == Some(a) && Moves(h, a, t.dossiers[a], op, t'.dossiers[a])))
  {
    hide Moves, WriteStep;
    if op.Write? {
      WriteShape(h, t, op.call, a);
    } else {
      assert DossierOk(h, a, t.dossiers[a]);
      ControlShape(h, t, op, a);
    }
  }

  lemma MovesGrows(h: Hashing, a: string, d: Dossier, op: Op, d': Dossier)
    requires DossierOk(h, a, d) && !Terminal(d.row.state) && Moves(h, a, d, op, d')
    ensures Grows(d, d')
  {
    if op.Write? && d.row.state == OPEN {
      CommitDossier(h, a, d, op.call);
    }
    hide DossierOk, AuditRow, InsertBySeq;
  }

  lemma StepGrows(h: Hashing, t: Tables, op: Op, a: string)
    requires Inv(h, t) && a in t.dossiers
    ensures var t' := Step(h, t, op).0; a in t'.dossiers && Grows(t.dossiers[a], t'.dossiers[a])
  {
    hide Grows, Moves, Step, DossierOk, SealConsistent, NothingAdmitted, LedgerIntact;
    StepShape(h, t, op, a);
    var d' := Step(h, t, op).0.dossiers[a];
    if d' == t.dossiers[a] {
      GrowsReflexive(d');
    } else {
      ActiveDossier(h, t);
      MovesGrows(h, a, t.dossiers[a], op, d');
    }
  }

  lemma {:induction false} RunGrows(h: Hashing, t: Tables, ops: seq<Op>, a: string)
    requires Inv(h, t) && a in t.dossiers
    ensures var t' := Run(h, t, ops); a in t'.dossiers && Grows(t.dossiers[a], t'.dossiers[a])
  {
    if ops != [] {
      var mid := Run(h, t, ops[..|ops| - 1]);
      RunKeeps(h, t, ops[..|ops| - 1]);
      RunGrows(h, t, ops[..|ops| - 1], a);
      hide Inv, Step, Grows;
      StepGrows(h, mid, ops[|ops| - 1], a);
      GrowsTransitive(t.dossiers[a], mid.dossiers[a], Run(h, t, ops).dossiers[a]);
    } else {
      GrowsReflexive(t.dossiers[a]);
    }
  }

  // ---------------------------------------------------------------- sealing

  /** In every reachable state the two sealing transactions fail for one reason only: the
      integrity and drain checks inside them never fire, and finalizing needs exactly a seal
      whose request count is still current. */
  lemma SealingOutcomes(h: Hashing, ops: seq<Op>, a: string, now: Time)
    ensures var t := Run(h, EMPTY, ops);
            && FinalSnapshotStep(h, t, a).1 ==
               (if IsActiveIn(t, a, FENCED)
                then
                  var d := t.dossiers[a];
                  Sealed(Seal(a, d.row.watermark, d.requests, ObserveAll(d.audit)))
                else Raised(InvalidAttemptState))
            && FinalizeStep(h, t, a, now).1 ==
               (if IsActiveIn(t, a, FENCED) && t.dossiers[a].row.auditComplete
                   && t.dossiers[a].row.finalRequestCount == Some(|t.dossiers[a].requests|)
                then Done else Raised(InvalidAttemptState))
  {
    EveryHistoryKeepsInv(h, ops);
    var t := Run(h, EMPTY, ops);
    if t.active == Some(a) {
      ActiveDossier(h, t);
    }
    hide Inv, DossierOk, LedgerIntact, ObserveAll, Run;
  }

  /** The reply of the latest successful final snapshot of `a` in the history. */
  ghost function LastSeal(h: Hashing, ops: seq<Op>, a: string): Option<Seal> {
    if ops == [] then None else
      var r := Step(h, Run(h, EMPTY, ops[..|ops| - 1]), ops[|ops| - 1]).1;
      if r.Sealed? && r.seal.attempt == a then Some(r.seal) else LastSeal(h, ops[..|ops| - 1], a)
  }

  ghost predicate SealHolds(s: Seal, d: Dossier) {
    && (forall r :: r in s.requests ==> r in d.requests && d.requests[r] == s.requests[r])
    && d.row.finalRequestCount == Some(|s.requests|)
    && s.watermark == d.row.watermark
    && s.audit == ObserveAll(d.audit)
  }

  /** The stored seal flag and the latest final snapshot say the same thing. */
  ghost predicate SealTracked(t: Tables, a: string, s: Option<Seal>) {
    if a in t.dossiers then
      var d := t.dossiers[a];
      && (s.Some? ==> d.row.state != PREPARED && d.row.state != OPEN)
      && (d.row.state == FENCED && s.Some? ==> d.row.auditComplete)
      && (d.row.auditComplete ==> s.Some? && SealHolds(s.value, d))
    else s.None?
  }

  lemma MovesKeepSeal(h: Hashing, a: string, d: Dossier, op: Op, d': Dossier, s: Option<Seal>, s': Option<Seal>)
    requires DossierOk(h, a, d) && !Terminal(d.row.state) && Moves(h, a, d, op, d')
    requires s.Some? ==> d.row.state != PREPARED && d.row.state != OPEN
    requires d.row.state == FENCED && s.Some? ==> d.row.auditComplete
    requires d.row.auditComplete ==> s.Some? && SealHolds(s.value, d)
    requires s' == if op.FinalSnapshot? then Some(Seal(a, d.row.watermark, d.requests, ObserveAll(d.audit))) else s
    ensures s'.Some? ==> d'.row.state != PREPARED && d'.row.state != OPEN
    ensures d'.row.state == FENCED && s'.Some? ==> d'.row.auditComplete
    ensures d'.row.auditComplete ==> s'.Some? && SealHolds(s'.value, d')
  {
    hide LedgerIntact, CommitsMatchAudit, NothingAdmitted, ObserveAll, AuditRow, InsertBySeq, RejectedRow;
  }

  /** A sealed reply comes from a final snapshot of the active attempt and tells its evidence. */
  lemma SealReply(h: Hashing, t: Tables, op: Op)
    ensures var (t', r) := Step(h, t, op);
            if r.Sealed? then
              && op.FinalSnapshot? && t.active == Some(op.attempt)
              && op.attempt in t.dossiers && op.attempt in t'.dossiers
              && var d := t.dossiers[op.attempt];
                 && r.seal == Seal(op.attempt, d.row.watermark, d.requests, ObserveAll(d.audit))
                 && Moves(h, op.attempt, d, op, t'.dossiers[op.attempt])
            else op.FinalSnapshot? ==> t' == t
  {
    hide LedgerIntact, Drained, ObserveAll;
  }

  lemma {:induction false} HistoryTracksSeal(h: Hashing, ops: seq<Op>, a: string)
    ensures SealTracked(Run(h, EMPTY, ops), a, LastSeal(h, ops, a))
  {
    if ops != [] {
      HistoryTracksSeal(h, ops[..|ops| - 1], a);
      EveryHistoryKeepsInv(h, ops[..|ops| - 1]);
      hide Inv, SealTracked, Step;
      StepTracksSeal(h, Run(h, EMPTY, ops[..|ops| - 1]), ops[|ops| - 1], a, LastSeal(h, ops[..|ops| - 1], a));
    }
  }

  lemma StepTracksSeal(h: Hashing, t: Tables, op: Op, a: string, s: Option<Seal>)
    requires Inv(h, t) && SealTracked(t, a, s)
    ensures var (t', r) := Step(h, t, op);
            SealTracked(t', a, if r.Sealed? && r.seal.attempt == a then Some(r.seal) else s)
  {
    var (t', r) := Step(h, t, op);
    SealReply(h, t, op);
    hide SealHolds, Moves, DossierOk, SealConsistent, LedgerIntact, NothingAdmitted;
    if a in t.dossiers {
      StepShape(h, t, op, a);
      if Moves(h, a, t.dossiers[a], op, t'.dossiers[a]) && t.active == Some(a) {
        ActiveDossier(h, t);
        var d := t.dossiers[a];
        var taken := Seal(a, d.row.watermark, d.requests, ObserveAll(d.audit));
        MovesKeepSeal(h, a, d, op, t'.dossiers[a], s, if op.FinalSnapshot? then Some(taken) else s);
      }
      hide Step;
    }
  }

  /** Rows are only added, so a current count means a current set. */
  lemma SameCountSameRows<K, V>(earlier: map<K, V>, now: map<K, V>)
    requires forall k :: k in earlier ==> k in now && now[k] == earlier[k]
    requires |earlier| == |now|
    ensures earlier == now
  {
    assert earlier.Keys <= now.Keys;
    if earlier.Keys != now.Keys {
      assert earlier.Keys < now.Keys;
      ProperSubsetIsSmaller(earlier.Keys, now.Keys);
    }
  }

  lemma ProperSubsetIsSmaller<T>(s: set<T>, t: set<T>)
    requires s < t
    ensures |s| < |t|
  {
    assert |t| == |s| + |t - s| by { assert t == s + (t - s); }
    assert t - s != {};
  }

  /** Finalizing succeeds exactly when the attempt is active and fenced and the evidence of its
      latest final snapshot is still the whole evidence: one rejected row added since then is
      enough to refuse it. */
  lemma FinalizeIffSealCurrent(h: Hashing, ops: seq<Op>, a: string, now: Time)
    ensures var t := Run(h, EMPTY, ops);
            var s := LastSeal(h, ops, a);
            FinalizeStep(h, t, a, now).1 == Done <==>
              IsActiveIn(t, a, FENCED) && s.Some?
              && s.value.requests == t.dossiers[a].requests && s.value.audit == ObserveAll(t.dossiers[a].audit)
  {
    SealingOutcomes(h, ops, a, now);
    HistoryTracksSeal(h, ops, a);
    var t := Run(h, EMPTY, ops);
    var s := LastSeal(h, ops, a);
    hide Run, LastSeal, FinalizeStep, FinalSnapshotStep, ObserveAll;
    if IsActiveIn(t, a, FENCED) && s.Some? && t.dossiers[a].row.finalRequestCount == Some(|t.dossiers[a].requests|) {
      SameCountSameRows(s.value.requests, t.dossiers[a].requests);
    }
  }

  /** The central promise. Once finalizing succeeds, the attempt's request rows and audit ledger
      are those of its latest final snapshot, and no later transaction ever changes them. */
  lemma SealIsFinal(h: Hashing, ops: seq<Op>, a: string, now: Time, later: seq<Op>)
    requires FinalizeStep(h, Run(h, EMPTY, ops), a, now).1 == Done
    ensures var end := Run(h, Step(h, Run(h, EMPTY, ops), Finalize(a, now)).0, later);
            var s := LastSeal(h, ops, a);
            && s.Some? && a in end.dossiers && end.dossiers[a].row.state == FINALIZED
            && end.dossiers[a].requests == s.value.requests
            && ObserveAll(end.dossiers[a].audit) == s.value.audit
            && end.dossiers[a].row.watermark == s.value.watermark == |s.value.audit|
  {
    var t := Run(h, EMPTY, ops);
    FinalizeIffSealCurrent(h, ops, a, now);
    HistoryTracksSeal(h, ops, a);
    EveryHistoryKeepsInv(h, ops);
    StepKeeps(h, t, Finalize(a, now));
    assert |t.dossiers[a].audit| == t.dossiers[a].row.watermark by { assert DossierOk(h, a, t.dossiers[a]); }
    hide Inv, LastSeal, ObserveAll, LedgerIntact, Drained;
    var t' := Step(h, t, Finalize(a, now)).0;
    assert t'.dossiers[a] == t.dossiers[a].(row := t.dossiers[a].row.(state := FINALIZED, finalizedAt := Some(now)));
    RunGrows(h, t', later, a);
  }

  // ---------------------------------------------------------------- restarts

  /** In every reachable state at most one attempt is neither finalized nor aborted, and it is
      the one the active pointer names: a restart never finds a terminal or missing one. */
  lemma RestartFindsLiveAttempt(h: Hashing, ops: seq<Op>)
    ensures var t := Run(h, EMPTY, ops);
            && (forall a :: a in t.dossiers && !Terminal(t.dossiers[a].row.state) ==> t.active == Some(a))
            && (t.active.Some? ==> t.active.value in t.dossiers && !Terminal(t.dossiers[t.active.value].row.state))
            && BootstrapStep(t).1 == Done && BootstrapStep(t).0.active == t.active
  {
    EveryHistoryKeepsInv(h, ops);
    hide Run, DossierOk;
  }

  /** What the guard of the control transactions amounts to in every reachable state: it never lets a
      terminal state through, and for any other state the attempt's own state decides, the active
      pointer adding nothing. */
  lemma GuardMeansState(h: Hashing, ops: seq<Op>, a: string, s: AttemptState)
    ensures var t := Run(h, EMPTY, ops);
            IsActiveIn(t, a, s) <==> !Terminal(s) && a in t.dossiers && t.dossiers[a].row.state == s
  {
    RestartFindsLiveAttempt(h, ops);
    hide Run, BootstrapStep;
  }

  ghost predicate Recovering(t: Tables, a: string) {
    a in t.dossiers && t.dossiers[a].row.state in {RECOVERY_REQUIRED, ABORTED}
  }

  lemma {:induction false} RecoveryPersists(h: Hashing, t: Tables, ops: seq<Op>, a: string)
    requires Inv(h, t) && Recovering(t, a)
    ensures Recovering(Run(h, t, ops), a)
  {
    if ops != [] {
      RecoveryPersists(h, t, ops[..|ops| - 1], a);
      RunKeeps(h, t, ops[..|ops| - 1]);
      hide Inv, Step, Recovering;
      RecoveryStep(h, Run(h, t, ops[..|ops| - 1]), ops[|ops| - 1], a);
    }
  }

  lemma RecoveryStep(h: Hashing, t: Tables, op: Op, a: string)
    requires Inv(h, t) && Recovering(t, a)
    ensures Recovering(Step(h, t, op).0, a)
  {
    StepShape(h, t, op, a);
    hide Inv, Step, AuditRow, InsertBySeq, RejectedRow;
  }

  /** An attempt that was active across a restart is never finalized afterwards; while it is
      still active it can be aborted, and nothing but aborting it releases the store. */
  lemma RestartedAttemptNeverFinalizes(h: Hashing, ops: seq<Op>, later: seq<Op>, a: string, now: Time)
    requires Run(h, EMPTY, ops).active == Some(a)
    ensures var t := Run(h, BootstrapStep(Run(h, EMPTY, ops)).0, later);
            && Recovering(t, a)
            && (t.dossiers[a].row.state == RECOVERY_REQUIRED ==>
                  && t.active == Some(a)
                  && var (t', r) := AbortStep(t, a, now);
                     r == Done && t'.active == None && a in t'.dossiers && t'.dossiers[a].row.state == ABORTED)
  {
    var t := Run(h, EMPTY, ops);
    EveryHistoryKeepsInv(h, ops);
    StepKeeps(h, t, Bootstrap);
    RestartRecovers(h, t, a);
    hide Inv, BootstrapStep, AbortStep, Recovering;
    RunKeeps(h, BootstrapStep(t).0, later);
    RecoveryPersists(h, BootstrapStep(t).0, later, a);
    var end := Run(h, BootstrapStep(t).0, later);
    assert a in end.dossiers by { RecoveringHas(end, a); }
    if end.dossiers[a].row.state == RECOVERY_REQUIRED {
      AbortReleases(h, end, a, now);
    }
  }

  lemma RecoveringHas(t: Tables, a: string)
    requires Recovering(t, a)
    ensures a in t.dossiers
  {
  }

  lemma RestartRecovers(h: Hashing, t: Tables, a: string)
    requires Inv(h, t) && t.active == Some(a)
    ensures Recovering(BootstrapStep(t).0, a)
  {
    hide DossierOk, RecordsOk, CredentialsOk;
  }

  lemma AbortReleases(h: Hashing, t: Tables, a: string, now: Time)
    requires Inv(h, t) && Recovering(t, a) && t.dossiers[a].row.state == RECOVERY_REQUIRED
    ensures t.active == Some(a)
    ensures var (t', r) := AbortStep(t, a, now);
            r == Done && t'.active == None && a in t'.dossiers && t'.dossiers[a].row.state == ABORTED
  {
    hide DossierOk, RecordsOk, CredentialsOk, FailAdmitted;
  }

  // ---------------------------------------------------------------- at most once

  datatype Commit = Commit(attempt: string, call: WriteCall)

  /** The write a transaction made durable: acknowledged, or committed and its response lost. */
  ghost function DurableWrite(h: Hashing, t: Tables, op: Op): Option<Commit> {
    if op.Write? && t.active.Some? then
      match Step(h, t, op).1
      case Wrote(_, _, true, _) => Some(Commit(t.active.value, op.call))
      case Raised(ResponseLoss) => Some(Commit(t.active.value, op.call))
      case _ => None
    else None
  }

  ghost function CommitLog(h: Hashing, ops: seq<Op>): seq<Commit> {
    if ops == [] then [] else
      var log := CommitLog(h, ops[..|ops| - 1]);
      var w := DurableWrite(h, Run(h, EMPTY, ops[..|ops| - 1]), ops[|ops| - 1]);
      if w.Some? then log + [w.value] else log
  }

  ghost function Replay(log: seq<Commit>): map<string, Record> {
    if log == [] then map[] else
      var c := log[|log| - 1];
      Replay(log[..|log| - 1])[c.call.recordId := Record(c.call.value, c.attempt, c.call.request, c.call.now)]
  }

  /** The request ids a log committed for one attempt, in order. */
  ghost function RequestsIn(log: seq<Commit>, a: string): seq<string> {
    if log == [] then [] else
      var c := log[|log| - 1];
      RequestsIn(log[..|log| - 1], a) + if c.attempt == a then [c.call.request] else []
  }

  function AuditRequests(rows: seq<Event>): seq<string> {
    seq(|rows|, i requires 0 <= i < |rows| => rows[i].payload.requestId)
  }

  ghost predicate LogTracked(t: Tables, log: seq<Commit>) {
    && t.records == Replay(log)
    && (forall i :: 0 <= i < |log| ==> Committed(t, log[i].attempt, log[i].call.request))
    && (forall i, j :: 0 <= i < j < |log| ==>
          log[i].attempt != log[j].attempt || log[i].call.request != log[j].call.request)
    && (forall a :: a in t.dossiers ==> AuditRequests(t.dossiers[a].audit) == RequestsIn(log, a))
    && (forall i :: 0 <= i < |log| ==> log[i].attempt in t.dossiers)
  }

  /** What a transaction that made no write durable leaves alone. */
  ghost predicate LeavesCommits(t: Tables, t': Tables) {
    && t'.records == t.records
    && (forall a :: a in t.dossiers ==> a in t'.dossiers && t'.dossiers[a].audit == t.dossiers[a].audit)
    && (forall a :: a in t'.dossiers && a !in t.dossiers ==> t'.dossiers[a].audit == [])
  }

  lemma WriteCommits(h: Hashing, t: Tables, w: WriteCall)
    ensures var (t', r) := WriteStep(h, t, w);
            var c := DurableWrite(h, t, Write(w));
            && (r.Raised? && r.error != ResponseLoss ==> t' == t)
            && (if c.Some? then
                  && c.value.call == w && t.active == Some(c.value.attempt) && c.value.attempt in t.dossiers
                  && w.request !in t.dossiers[c.value.attempt].requests
                  && t.dossiers[c.value.attempt].row.state == OPEN
                  && t' == CommitWrite(h, t, c.value.attempt, w)
                else LeavesCommits(t, t'))
  {
    hide CommitWrite, AuditInsertConflicts, RejectedRow;
  }

  lemma ControlCommits(h: Hashing, t: Tables, op: Op)
    requires !op.Write?
    ensures var (t', r) := Step(h, t, op);
            LeavesCommits(t, t') && (r.Raised? ==> t' == t)
  {
    hide LedgerIntact, FailAdmitted, Drained, ObserveAll;
  }

  lemma CommitTracked(h: Hashing, t: Tables, log: seq<Commit>, a: string, w: WriteCall)
    requires Inv(h, t) && LogTracked(t, log) && t.active == Some(a) && a in t.dossiers
    requires w.request !in t.dossiers[a].requests && t.dossiers[a].row.state == OPEN
    ensures LogTracked(CommitWrite(h, t, a, w), log + [Commit(a, w)])
  {
    var d := t.dossiers[a];
    CommitDossier(h, a, d, w);
    hide Inv, DossierOk, InsertBySeq;
    LogAppend(t, CommitWrite(h, t, a, w), log, a, w, AuditRow(h, a, d.row, d.audit, w));
  }

  lemma LogAppend(t: Tables, t': Tables, log: seq<Commit>, a: string, w: WriteCall, e: Event)
    requires LogTracked(t, log) && a in t.dossiers && a in t'.dossiers
    requires w.request !in t.dossiers[a].requests && e.payload.requestId == w.request
    requires t'.records == t.records[w.recordId := Record(w.value, a, w.request, w.now)]
    requires t'.dossiers == t.dossiers[a := t'.dossiers[a]]
    requires t'.dossiers[a].requests == t.dossiers[a].requests[w.request := CommittedRow(w)]
    requires t'.dossiers[a].audit == t.dossiers[a].audit + [e]
    ensures LogTracked(t', log + [Commit(a, w)])
  {
    var log' := log + [Commit(a, w)];
    assert log'[..|log|] == log;
    assert !Committed(t, a, w.request) && Committed(t', a, w.request);
    assert forall b, r :: Committed(t, b, r) ==> Committed(t', b, r);
    hide Committed, CommittedRow;
    assert AuditRequests(t.dossiers[a].audit + [e]) == AuditRequests(t.dossiers[a].audit) + [w.request];
    forall b | b in t'.dossiers ensures AuditRequests(t'.dossiers[b].audit) == RequestsIn(log', b) {
      assert b != a ==> t'.dossiers[b] == t.dossiers[b];
    }
  }

  lemma IdleTracked(h: Hashing, t: Tables, t': Tables, log: seq<Commit>)
    requires LogTracked(t, log) && LeavesCommits(t, t')
    requires forall a, r :: Committed(t, a, r) ==> Committed(t', a, r)
    ensures LogTracked(t', log)
  {
    hide Committed;
    forall a | a in t'.dossiers ensures AuditRequests(t'.dossiers[a].audit) == RequestsIn(log, a) {
      if a !in t.dossiers {
        NoRequestsIn(log, a);
      }
    }
  }

  lemma NoRequestsIn(log: seq<Commit>, a: string)
    requires forall i :: 0 <= i < |log| ==> log[i].attempt != a
    ensures RequestsIn(log, a) == []
  {
  }

  lemma CommittedStays(h: Hashing, t: Tables, op: Op)
    requires Inv(h, t)
    ensures forall a, r :: Committed(t, a, r) ==> Committed(Step(h, t, op).0, a, r)
  {
    hide Inv, Step;
    forall a, r | Committed(t, a, r) ensures Committed(Step(h, t, op).0, a, r) {
      StepGrows(h, t, op, a);
    }
  }

  lemma WriteTracked(h: Hashing, t: Tables, w: WriteCall, log: seq<Commit>)
    requires Inv(h, t) && LogTracked(t, log)
    requires forall a, r :: Committed(t, a, r) ==> Committed(WriteStep(h, t, w).0, a, r)
    ensures var c := DurableWrite(h, t, Write(w));
            LogTracked(WriteStep(h, t, w).0, if c.Some? then log + [c.value] else log)
  {
    hide Inv, LogTracked, WriteStep, CommitWrite, Committed, LeavesCommits, DurableWrite;
    var c := DurableWrite(h, t, Write(w));
    WriteCommits(h, t, w);
    if c.Some? {
      CommitTracked(h, t, log, c.value.attempt, w);
      assert c.value == Commit(c.value.attempt, w);
    } else {
      IdleTracked(h, t, WriteStep(h, t, w).0, log);
    }
  }

  lemma StepTracked(h: Hashing, t: Tables, op: Op, log: seq<Commit>)
    requires Inv(h, t) && LogTracked(t, log)
    ensures var c := DurableWrite(h, t, op);
            LogTracked(Step(h, t, op).0, if c.Some? then log + [c.value] else log)
  {
    CommittedStays(h, t, op);
    hide Inv, LogTracked, WriteStep, Committed, LeavesCommits;
    match op
    case Write(w) => WriteTracked(h, t, w, log);
    case _ =>
      hide Step;
      ControlCommits(h, t, op);
      IdleTracked(h, t, Step(h, t, op).0, log);
  }

  /** At most once, and nothing but commits. In every history, with any retries, faults, lost
      responses and restarts: the records are the replay, in order, of the writes that became
      durable; no (attempt, request) pair became durable twice; and the audit ledger of each
      attempt lists exactly its durable requests in the order they were made. */
  lemma {:induction false} RecordsReplayCommits(h: Hashing, ops: seq<Op>)
    ensures LogTracked(Run(h, EMPTY, ops), CommitLog(h, ops))
  {
    if ops != [] {
      RecordsReplayCommits(h, ops[..|ops| - 1]);
      EveryHistoryKeepsInv(h, ops[..|ops| - 1]);
      hide Inv, LogTracked, Step, DurableWrite;
      StepTracked(h, Run(h, EMPTY, ops[..|ops| - 1]), ops[|ops| - 1], CommitLog(h, ops[..|ops| - 1]));
    }
  }

  /** Retrying a write whose response was lost is refused and changes nothing, whatever ran in
      between: the request id is taken while the attempt is active, the token stale afterwards. */
  lemma RetryAfterLostResponse(h: Hashing, ops: seq<Op>, w: WriteCall, between: seq<Op>, retry: WriteCall)
    requires WriteStep(h, Run(h, EMPTY, ops), w).1 == Raised(ResponseLoss)
    requires retry.token == w.token && retry.request == w.request
    ensures var t := Run(h, WriteStep(h, Run(h, EMPTY, ops), w).0, between);
            var (t', r) := WriteStep(h, t, retry);
            t' == t && (r == Raised(RequestConflict) || r == Raised(StaleCredential))
  {
    var t0 := Run(h, EMPTY, ops);
    EveryHistoryKeepsInv(h, ops);
    WriteKeeps(h, t0, w);
    LostResponseRecords(h, t0, w);
    var t1 := WriteStep(h, t0, w).0;
    hide Inv, WriteStep, Taken;
    TakenStays(h, t1, between, h.token(w.token), w.request);
    TakenRefuses(h, Run(h, t1, between), retry);
  }

  /** The token's attempt already has a row for the request. */
  ghost predicate Taken(t: Tables, c: string, r: string) {
    c in t.credentials && t.credentials[c] in t.dossiers && r in t.dossiers[t.credentials[c]].requests
  }

  lemma LostResponseRecords(h: Hashing, t: Tables, w: WriteCall)
    requires WriteStep(h, t, w).1 == Raised(ResponseLoss)
    ensures Taken(WriteStep(h, t, w).0, h.token(w.token), w.request)
  {
    hide AuditInsertConflicts, AuditRow, InsertBySeq, CommittedRow, RejectedRow;
  }

  lemma TakenRefuses(h: Hashing, t: Tables, w: WriteCall)
    requires Taken(t, h.token(w.token), w.request)
    ensures var (t', r) := WriteStep(h, t, w);
            t' == t && (r == Raised(RequestConflict) || r == Raised(StaleCredential))
  {
  }

  lemma TakenStays(h: Hashing, t: Tables, ops: seq<Op>, c: string, r: string)
    requires Inv(h, t) && Taken(t, c, r)
    ensures Taken(Run(h, t, ops), c, r)
  {
    hide Inv;
    RunGrows(h, t, ops, t.credentials[c]);
    RunKeepsCredential(h, t, ops, c);
    hide Run;
  }

  lemma {:induction false} RunKeepsCredential(h: Hashing, t: Tables, ops: seq<Op>, c: string)
    requires c in t.credentials
    ensures c in Run(h, t, ops).credentials && Run(h, t, ops).credentials[c] == t.credentials[c]
  {
    if ops != [] {
      RunKeepsCredential(h, t, ops[..|ops| - 1], c);
      StepKeepsCredential(h, Run(h, t, ops[..|ops| - 1]), ops[|ops| - 1], c);
    }
  }

  lemma StepKeepsCredential(h: Hashing, t: Tables, op: Op, c: string)
    requires c in t.credentials
    ensures c in Step(h, t, op).0.credentials && Step(h, t, op).0.credentials[c] == t.credentials[c]
  {
    hide LedgerIntact, FailAdmitted, Drained, ObserveAll, CommitIn, RejectIn, AuditInsertConflicts;
  }

  // ---------------------------------------------------------------- reads that are not transactions

  /** `snapshot` reads the attempt row, then the request rows, then the audit rows, with any
      transactions in between. It still shows an audit event for every committed request it
      shows, an intact chain, and at least as many events as the watermark it shows. It shows
      an event of a request it does not show exactly when a write committed between its
      second and its third read. */
  lemma SnapshotCoherent(h: Hashing, ops: seq<Op>, first: seq<Op>, second: seq<Op>, a: string)
    requires a in Run(h, EMPTY, ops).dossiers
    ensures var t0 := Run(h, EMPTY, ops);
            var t1 := Run(h, t0, first);
            var t2 := Run(h, t1, second);
            && a in t1.dossiers && a in t2.dossiers
            && var row, requests, audit := t0.dossiers[a].row, t1.dossiers[a].requests, t2.dossiers[a].audit;
               && row.watermark <= |audit| && ValidChain(h.payload, audit)
               && (forall r :: r in requests && requests[r].state == COMMITTED ==> Audited(audit, r))
               && ((forall i :: 0 <= i < |audit| ==> audit[i].payload.requestId in requests)
                   <==> t2.dossiers[a].row.watermark == t1.dossiers[a].row.watermark)
  {
    var t0 := Run(h, EMPTY, ops);
    var t1 := Run(h, t0, first);
    var t2 := Run(h, t1, second);
    EveryHistoryKeepsInv(h, ops);
    RunKeeps(h, t0, first);
    RunKeeps(h, t1, second);
    RunGrows(h, t0, first, a);
    RunGrows(h, t1, second, a);
    assert DossierOk(h, a, t0.dossiers[a]) && DossierOk(h, a, t1.dossiers[a]) && DossierOk(h, a, t2.dossiers[a]);
    hide Run, Inv;
    TornRead(h, a, t0.dossiers[a], t1.dossiers[a], t2.dossiers[a]);
  }

  lemma TornRead(h: Hashing, a: string, d0: Dossier, d1: Dossier, d2: Dossier)
    requires DossierOk(h, a, d0) && DossierOk(h, a, d1) && DossierOk(h, a, d2)
    requires Grows(d0, d1) && Grows(d1, d2)
    ensures d0.row.watermark <= |d2.audit| && ValidChain(h.payload, d2.audit)
    ensures forall r :: r in d1.requests && d1.requests[r].state == COMMITTED ==> Audited(d2.audit, r)
    ensures (forall i :: 0 <= i < |d2.audit| ==> d2.audit[i].payload.requestId in d1.requests)
            <==> d2.row.watermark == d1.row.watermark
  {
    hide ValidChain, SealConsistent;
    forall r | r in d1.requests && d1.requests[r].state == COMMITTED ensures Audited(d2.audit, r) {
      var i :| 0 <= i < |d1.audit| && d1.audit[i].payload.requestId == r;
      assert d2.audit[i] == d1.audit[i];
    }
    if |d2.audit| > |d1.audit| {
      var r := d2.audit[|d1.audit|].payload.requestId;
      assert d2.audit[|d1.audit|].payload.requestId == r;
    } else {
      assert d2.audit == d1.audit;
    }
  }

  function OneWrite(now: Time): WriteCall { WriteCall("t", "k", "v", "r", None, None, None, "e", now, now, now) }

  /** The tear happens: an attempt is created and opened, its rows are read, a write commits, and then
      the audit rows are read. They show an event of a request that the rows read do not hold. */
  lemma SnapshotTears(h: Hashing, now: Time)
    ensures var t1 := Run(h, EMPTY, [Create("a", "t", now), Open("a", now)]);
            var t2 := Run(h, t1, [Write(OneWrite(now))]);
            && "a" in t1.dossiers && "a" in t2.dossiers && |t2.dossiers["a"].audit| == 1
            && t2.dossiers["a"].audit[0].payload.requestId !in t1.dossiers["a"].requests
  {
    var create, open, write := Create("a", "t", now), Open("a", now), Write(OneWrite(now));
    var t0 := CreateStep(h, EMPTY, "a", "t", now).0;
    assert [create, open][..1] == [create] && [create][..0] == [] && [write][..0] == [];
    assert Run(h, EMPTY, [create]) == t0;
    var t1 := OpenStep(t0, "a", now).0;
    assert Run(h, EMPTY, [create, open]) == t1;
    assert t1.dossiers["a"].audit == [] && t1.dossiers["a"].row.state == OPEN;
    assert Run(h, t1, [write]) == WriteStep(h, t1, OneWrite(now)).0;
  }

  function EventsAfter(rows: seq<Event>, cursor: nat): seq<Event> {
    if rows == [] then []
    else EventsAfter(rows[..|rows| - 1], cursor)
         + if rows[|rows| - 1].payload.seqNo > cursor then [rows[|rows| - 1]] else []
  }

  /** `observer_events` reads the active attempt, then its cursor, then the newer audit rows,
      with any transactions in between. It returns exactly the rows that follow the cursor it
      read, without a gap, up to the watermark of its last read. */
  lemma ObserverSeesSuffix(h: Hashing, ops: seq<Op>, first: seq<Op>, second: seq<Op>, a: string)
    requires Run(h, EMPTY, ops).active == Some(a)
    ensures var t1 := Run(h, Run(h, EMPTY, ops), first);
            var t2 := Run(h, t1, second);
            && a in t1.dossiers && a in t2.dossiers
            && var cursor, rows := t1.dossiers[a].cursor, t2.dossiers[a].audit;
               && cursor <= |rows|
               && EventsAfter(rows, cursor) == rows[cursor..]
               && |EventsAfter(rows, cursor)| == t2.dossiers[a].row.watermark - cursor
               && forall i :: 0 <= i < |EventsAfter(rows, cursor)| ==>
                    EventsAfter(rows, cursor)[i].payload.seqNo == cursor + 1 + i
  {
    var t0 := Run(h, EMPTY, ops);
    var t1 := Run(h, t0, first);
    var t2 := Run(h, t1, second);
    EveryHistoryKeepsInv(h, ops);
    RunKeeps(h, t0, first);
    RunKeeps(h, t1, second);
    RunGrows(h, t0, first, a);
    RunGrows(h, t1, second, a);
    hide Run, DossierOk;
    assert DossierOk(h, a, t1.dossiers[a]) && DossierOk(h, a, t2.dossiers[a]);
    hide Inv, EventsAfter, Grows;
    RowsAfterCursor(h, a, t1.dossiers[a], t2.dossiers[a]);
  }

  lemma RowsAfterCursor(h: Hashing, a: string, d1: Dossier, d2: Dossier)
    requires DossierOk(h, a, d1) && DossierOk(h, a, d2) && Grows(d1, d2)
    ensures var cursor, rows := d1.cursor, d2.audit;
            && cursor <= |rows| && EventsAfter(rows, cursor) == rows[cursor..]
            && |EventsAfter(rows, cursor)| == d2.row.watermark - cursor
            && forall i :: 0 <= i < |EventsAfter(rows, cursor)| ==>
                 EventsAfter(rows, cursor)[i].payload.seqNo == cursor + 1 + i
  {
    hide NothingAdmitted, CommitsMatchAudit, SealConsistent, EventsAfter;
    var rows := d2.audit;
    forall i | 0 <= i < |rows| ensures rows[i].payload.seqNo == i + 1 {
      assert RowLinked(h.payload, rows, i);
    }
    SuffixAfter(rows, d1.cursor);
  }

  predicate Numbered(rows: seq<Event>) { forall i :: 0 <= i < |rows| ==> rows[i].payload.seqNo == i + 1 }

  lemma NumberedLast(rows: seq<Event>)
    requires Numbered(rows) && rows != []
    ensures Numbered(rows[..|rows| - 1]) && rows[|rows| - 1].payload.seqNo == |rows|
  { }

  lemma {:induction false} SuffixAfter(rows: seq<Event>, cursor: nat)
    requires Numbered(rows)
    ensures EventsAfter(rows, cursor) == if cursor <= |rows| then rows[cursor..] else []
  {
    hide Numbered;
    if rows != [] {
      var front := rows[..|rows| - 1];
      NumberedLast(rows);
      SuffixAfter(front, cursor);
      if cursor < |rows| {
        assert rows[cursor..] == front[cursor..] + [rows[|rows| - 1]];
      }
    }
  }
}
