/** The fixture store as a transition system: one committed or rolled-back transaction is
    one step over the tables. `FixtureStore` (the class) performs the same transactions
    statement by statement and is proved to take exactly these steps. */
module StoreSpec {
  import opened Options
  import opened AuditLedger

  datatype AttemptState = PREPARED | OPEN | FENCED | FINALIZED | ABORTED | RECOVERY_REQUIRED

  predicate Terminal(s: AttemptState) { s == FINALIZED || s == ABORTED }

  datatype Attempt = Attempt(
    credential: string, principal: string, state: AttemptState,
    createdAt: Time, openedAt: Option<Time>, fencedAt: Option<Time>, finalizedAt: Option<Time>,
    watermark: nat, finalWatermark: Option<nat>, finalRequestCount: Option<nat>, auditComplete: bool)

  datatype RequestState = ADMITTED | COMMITTED | REJECTED | ROLLED_BACK | FAILED

  datatype Request = Request(
    operation: string, state: RequestState,
    assertedAttempt: Option<string>, assertedPrincipal: Option<string>,
    createdAt: Time, finishedAt: Option<Time>, rejectionReason: Option<string>)

  datatype Record = Record(value: string, byAttempt: string, byRequest: string, updatedAt: Time)

  /** Everything the tables hold under one attempt id: its row, its request rows by request id,
      its audit rows in the order of their sequence number, and its observer cursor. */
  datatype Dossier = Dossier(row: Attempt, requests: map<string, Request>, audit: seq<Event>, cursor: nat)

  /** The tables, grouped by the attempt id that keys them, and their unique indexes. */
  datatype Tables = Tables(
    dossiers: map<string, Dossier>,
    credentials: map<string, string>,
    active: Option<string>,
    records: map<string, Record>,
    eventIds: set<string>)

  const EMPTY := Tables(map[], map[], None, map[], {})

  /** The two hashes the store computes: of a token, and of an audit payload. */
  datatype Hashing = Hashing(token: string -> string, payload: Payload -> string)

  datatype Error =
    | ActiveAttemptExists | InvalidAttemptState | InvalidCredential | StaleCredential | RequestConflict
    | DrainIncomplete | LedgerIntegrityError | InjectedFault | ResponseLoss | MissingRecord | ConstraintViolation

  datatype Fault = AuditFailure | CrashBeforeCommit | LostResponse

  datatype ObserverEvent = ObserverEvent(
    kind: string, seqNo: int, eventId: string, requestId: string,
    operation: string, principal: string, details: Details)

  datatype Seal = Seal(attempt: string, watermark: nat, requests: map<string, Request>, audit: seq<ObserverEvent>)

  datatype Reply =
    | Done
    | Wrote(attempt: string, request: string, committed: bool, auditSeq: Option<nat>)
    | CursorAt(watermark: nat)
    | Sealed(seal: Seal)
    | Raised(error: Error)

  /** One write call: the request id and event id it uses and the clock readings it takes. */
  datatype WriteCall = WriteCall(
    token: string, recordId: string, value: string, request: string,
    assertedAttempt: Option<string>, assertedPrincipal: Option<string>, fault: Option<Fault>,
    eventId: string, now: Time, auditedAt: Time, finishedAt: Time)

  datatype Op =
    | Bootstrap
    | Create(attempt: string, token: string, now: Time)
    | Open(attempt: string, now: Time)
    | Close(attempt: string, now: Time)
    | AbortRecovery(attempt: string, now: Time)
    | Write(call: WriteCall)
    | ResetCursor
    | FinalSnapshot(attempt: string)
    | Finalize(attempt: string, now: Time)

  // ---------------------------------------------------------------- queries

  predicate IsActiveIn(t: Tables, a: string, s: AttemptState) {
    t.active == Some(a) && a in t.dossiers && t.dossiers[a].row.state == s
  }

  predicate TerminalRequest(s: RequestState) { s != ADMITTED }

  predicate Drained(rows: map<string, Request>) {
    forall r :: r in rows ==> TerminalRequest(rows[r].state)
  }

  predicate SeqTaken(rows: seq<Event>, n: int) {
    exists i :: 0 <= i < |rows| && rows[i].payload.seqNo == n
  }

  /** The hash of the row numbered `n`, or the zero hash when there is none. */
  function HashAt(rows: seq<Event>, n: int): string {
    if rows == [] then ZERO_HASH
    else if rows[|rows| - 1].payload.seqNo == n then rows[|rows| - 1].eventHash
    else HashAt(rows[..|rows| - 1], n)
  }

  /** Insertion that keeps the rows ordered by sequence number. */
  function InsertBySeq(rows: seq<Event>, e: Event): seq<Event> {
    if rows == [] || rows[|rows| - 1].payload.seqNo < e.payload.seqNo then rows + [e]
    else InsertBySeq(rows[..|rows| - 1], e) + [rows[|rows| - 1]]
  }

  function Observe(e: Event): ObserverEvent {
    var p := e.payload;
    ObserverEvent(p.kind, p.seqNo, p.eventId, p.requestId, p.operation, p.principal, p.details)
  }

  function ObserveAll(rows: seq<Event>): seq<ObserverEvent> {
    seq(|rows|, i requires 0 <= i < |rows| => Observe(rows[i]))
  }

  function StateName(s: AttemptState): string {
    match s
    case PREPARED => "PREPARED"
    case OPEN => "OPEN"
    case FENCED => "FENCED"
    case FINALIZED => "FINALIZED"
    case ABORTED => "ABORTED"
    case RECOVERY_REQUIRED => "RECOVERY_REQUIRED"
  }

  // ---------------------------------------------------------------- updates

  function PutRow(t: Tables, a: string, x: Attempt): Tables
    requires a in t.dossiers
  {
    t.(dossiers := t.dossiers[a := t.dossiers[a].(row := x)])
  }

  function Unseal(x: Attempt, s: AttemptState): Attempt {
    x.(state := s, auditComplete := false, finalWatermark := None, finalRequestCount := None)
  }

  function NewAttempt(credential: string, now: Time): Attempt {
    Attempt(credential, "candidate_app", PREPARED, now, None, None, None, 0, None, None, false)
  }

  function RejectedRow(w: WriteCall, s: AttemptState): Request {
    Request("record_write", REJECTED, w.assertedAttempt, w.assertedPrincipal, w.now, Some(w.now),
            Some("attempt_state=" + StateName(s)))
  }

  function AdmittedRow(w: WriteCall): Request {
    Request("record_write", ADMITTED, w.assertedAttempt, w.assertedPrincipal, w.now, None, None)
  }

  function CommittedRow(w: WriteCall): Request {
    Request("record_write", COMMITTED, w.assertedAttempt, w.assertedPrincipal, w.now, Some(w.finishedAt), None)
  }

  /** The row chained after `rows` for attempt `a`, whose attempt row is `x`. */
  function AuditRow(h: Hashing, a: string, x: Attempt, rows: seq<Event>, w: WriteCall): Event {
    var p := Payload(a, x.watermark + 1, w.eventId, "database_write", w.request, "record_write", x.principal,
                     Details(w.recordId, w.assertedAttempt, w.assertedPrincipal), w.auditedAt,
                     HashAt(rows, x.watermark));
    Event(p, h.payload(p))
  }

  /** A dossier after a rejected write: one more request row. */
  function RejectIn(d: Dossier, w: WriteCall): Dossier {
    d.(requests := d.requests[w.request := RejectedRow(w, d.row.state)])
  }

  /** A dossier after a committed write: a committed request, one more chained audit row, and
      the watermark that counts it. */
  function CommitIn(h: Hashing, a: string, d: Dossier, w: WriteCall): Dossier {
    d.(requests := d.requests[w.request := CommittedRow(w)],
       audit := InsertBySeq(d.audit, AuditRow(h, a, d.row, d.audit, w)),
       row := d.row.(watermark := d.row.watermark + 1))
  }

  /** The durable effect of a write: the dossier, the record and the event index change
      together or not at all. */
  function CommitWrite(h: Hashing, t: Tables, a: string, w: WriteCall): Tables
    requires a in t.dossiers
  {
    t.(dossiers := t.dossiers[a := CommitIn(h, a, t.dossiers[a], w)],
       records := t.records[w.recordId := Record(w.value, a, w.request, w.now)],
       eventIds := t.eventIds + {w.eventId})
  }

  predicate AuditInsertConflicts(eventIds: set<string>, rows: seq<Event>, x: Attempt, w: WriteCall) {
    w.eventId in eventIds || SeqTaken(rows, x.watermark + 1)
  }

  function FailAdmitted(m: map<string, Request>, now: Time): map<string, Request> {
    map r | r in m ::
      if m[r].state != ADMITTED then m[r] else
      m[r].(state := FAILED,
            finishedAt := if m[r].finishedAt.Some? then m[r].finishedAt else Some(now),
            rejectionReason := if m[r].rejectionReason.Some? then m[r].rejectionReason else Some("recovery_abort"))
  }

  // ---------------------------------------------------------------- transactions

  function BootstrapStep(t: Tables): (Tables, Reply) {
    if t.active.None? then (t, Done)
    else if t.active.value !in t.dossiers then (t, Raised(MissingRecord))
    else
      var a := t.active.value;
      var x := t.dossiers[a].row;
      match x.state
      case PREPARED | OPEN | FENCED => (PutRow(t, a, Unseal(x, RECOVERY_REQUIRED)), Done)
      case FINALIZED | ABORTED => (t.(active := None), Done)
      case RECOVERY_REQUIRED => (t, Done)
  }

  function CreateStep(h: Hashing, t: Tables, a: string, token: string, now: Time): (Tables, Reply) {
    if t.active.Some? then (t, Raised(ActiveAttemptExists))
    else if a in t.dossiers || h.token(token) in t.credentials then (t, Raised(ConstraintViolation))
    else (t.(dossiers := t.dossiers[a := Dossier(NewAttempt(h.token(token), now), map[], [], 0)],
             credentials := t.credentials[h.token(token) := a],
             active := Some(a)), Done)
  }

  function OpenStep(t: Tables, a: string, now: Time): (Tables, Reply) {
    if IsActiveIn(t, a, PREPARED)
    then (PutRow(t, a, t.dossiers[a].row.(state := OPEN, openedAt := Some(now))), Done)
    else (t, Raised(InvalidAttemptState))
  }

  function CloseStep(t: Tables, a: string, now: Time): (Tables, Reply) {
    if IsActiveIn(t, a, OPEN)
    then (PutRow(t, a, t.dossiers[a].row.(state := FENCED, fencedAt := Some(now))), Done)
    else (t, Raised(InvalidAttemptState))
  }

  function AbortStep(t: Tables, a: string, now: Time): (Tables, Reply) {
    if IsActiveIn(t, a, RECOVERY_REQUIRED) then
      var d := t.dossiers[a];
      (t.(dossiers := t.dossiers[a := d.(row := Unseal(d.row, ABORTED), requests := FailAdmitted(d.requests, now))],
          active := None), Done)
    else (t, Raised(InvalidAttemptState))
  }

  /** A write that was admitted: faults and constraint violations leave no trace. */
  function AdmittedStep(h: Hashing, t: Tables, a: string, w: WriteCall): (Tables, Reply)
    requires a in t.dossiers
  {
    var d := t.dossiers[a];
    if w.fault == Some(AuditFailure) then (t, Raised(InjectedFault))
    else if AuditInsertConflicts(t.eventIds, d.audit, d.row, w) then (t, Raised(ConstraintViolation))
    else if w.fault == Some(CrashBeforeCommit) then (t, Raised(InjectedFault))
    else (CommitWrite(h, t, a, w),
          if w.fault == Some(LostResponse) then Raised(ResponseLoss)
          else Wrote(a, w.request, true, Some(d.row.watermark + 1)))
  }

  function WriteStep(h: Hashing, t: Tables, w: WriteCall): (Tables, Reply) {
    var credential := h.token(w.token);
    if credential !in t.credentials || t.credentials[credential] !in t.dossiers then (t, Raised(InvalidCredential))
    else
      var a := t.credentials[credential];
      var d := t.dossiers[a];
      if t.active != Some(a) then (t, Raised(StaleCredential))
      else if w.request in d.requests then (t, Raised(RequestConflict))
      else if d.row.state != OPEN then
        (t.(dossiers := t.dossiers[a := RejectIn(d, w)]), Wrote(a, w.request, false, None))
      else AdmittedStep(h, t, a, w)
  }

  function ResetCursorStep(t: Tables): (Tables, Reply) {
    if t.active.None? then (t, Raised(InvalidAttemptState))
    else if t.active.value !in t.dossiers then (t, Raised(MissingRecord))
    else
      var a := t.active.value;
      var n := t.dossiers[a].row.watermark;
      (t.(dossiers := t.dossiers[a := t.dossiers[a].(cursor := n)]), CursorAt(n))
  }

  function FinalSnapshotStep(h: Hashing, t: Tables, a: string): (Tables, Reply) {
    if !IsActiveIn(t, a, FENCED) then (t, Raised(InvalidAttemptState))
    else
      var d := t.dossiers[a];
      if !Drained(d.requests) then (t, Raised(DrainIncomplete))
      else if !LedgerIntact(h.payload, d.row.watermark, d.audit) then (t, Raised(LedgerIntegrityError))
      else (PutRow(t, a, d.row.(auditComplete := true, finalWatermark := Some(d.row.watermark),
                                finalRequestCount := Some(|d.requests|))),
            Sealed(Seal(a, d.row.watermark, d.requests, ObserveAll(d.audit))))
  }

  function FinalizeStep(h: Hashing, t: Tables, a: string, now: Time): (Tables, Reply) {
    if !IsActiveIn(t, a, FENCED) || !t.dossiers[a].row.auditComplete then (t, Raised(InvalidAttemptState))
    else
      var d := t.dossiers[a];
      if !Drained(d.requests) then (t, Raised(DrainIncomplete))
      else if d.row.finalRequestCount != Some(|d.requests|) || d.row.finalWatermark != Some(d.row.watermark)
      then (t, Raised(InvalidAttemptState))
      else if !LedgerIntact(h.payload, d.row.watermark, d.audit) then (t, Raised(LedgerIntegrityError))
      else (PutRow(t, a, d.row.(state := FINALIZED, finalizedAt := Some(now))).(active := None), Done)
  }

  function Step(h: Hashing, t: Tables, op: Op): (Tables, Reply) {
    match op
    case Bootstrap => BootstrapStep(t)
    case Create(a, token, now) => CreateStep(h, t, a, token, now)
    case Open(a, now) => OpenStep(t, a, now)
    case Close(a, now) => CloseStep(t, a, now)
    case AbortRecovery(a, now) => AbortStep(t, a, now)
    case Write(w) => WriteStep(h, t, w)
    case ResetCursor => ResetCursorStep(t)
    case FinalSnapshot(a) => FinalSnapshotStep(h, t, a)
    case Finalize(a, now) => FinalizeStep(h, t, a, now)
  }

  /** The tables after a whole history of transactions. */
  function Run(h: Hashing, t: Tables, ops: seq<Op>): Tables {
    if ops == [] then t else Step(h, Run(h, t, ops[..|ops| - 1]), ops[|ops| - 1]).0
  }
}
