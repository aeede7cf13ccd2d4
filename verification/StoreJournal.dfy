/** What the store promises, told in the plainest terms: a journal that lists, in order, every write
    that left a row, and the life of every attempt. It has no counters, flags, hashes, indexes or
    active pointer. The theorem of this module is that the tables and every reply of the store are
    what the journal says, over every history. */
module StoreJournal {
  import opened Options
  import opened AuditLedger
  import opened StoreSpec
  import opened StoreRuns

  /** A write that left a row, and the state its attempt was in when it came. */
  datatype Entry = Entry(attempt: string, call: WriteCall, stage: AttemptState)

  /** `seal` holds the entries that the latest final snapshot showed, until a restart voids it. */
  datatype Life = Life(
    stage: AttemptState, credential: string, createdAt: Time, openedAt: Option<Time>,
    fencedAt: Option<Time>, finalizedAt: Option<Time>, seal: Option<seq<Entry>>, observed: nat)

  datatype Journal = Journal(lives: map<string, Life>, tokens: map<string, string>, entries: seq<Entry>)

  const BLANK := Journal(map[], map[], [])

  // ---------------------------------------------------------------- reading a journal

  function EntriesOf(es: seq<Entry>, a: string): seq<Entry> {
    if es == [] then [] else
      var e := es[|es| - 1];
      EntriesOf(es[..|es| - 1], a) + if e.attempt == a then [e] else []
  }

  /** The calls of the writes that took effect, among entries of one attempt. */
  function Calls(es: seq<Entry>): seq<WriteCall> {
    if es == [] then [] else
      var e := es[|es| - 1];
      Calls(es[..|es| - 1]) + if e.stage == OPEN then [e.call] else []
  }

  function CallsOf(es: seq<Entry>, a: string): seq<WriteCall> { Calls(EntriesOf(es, a)) }

  predicate Used(es: seq<Entry>, a: string, r: string) {
    exists i :: 0 <= i < |es| && es[i].attempt == a && es[i].call.request == r
  }

  predicate EventUsed(es: seq<Entry>, id: string) {
    exists i :: 0 <= i < |es| && es[i].stage == OPEN && es[i].call.eventId == id
  }

  predicate Live(j: Journal, a: string) { a in j.lives && !Terminal(j.lives[a].stage) }

  predicate In(j: Journal, a: string, s: AttemptState) { a in j.lives && j.lives[a].stage == s }

  /** The request row that an entry stands for. A late write meets three states only. */
  function RowOf(e: Entry): Request {
    var c := e.call;
    if e.stage == OPEN
    then Request("record_write", COMMITTED, c.assertedAttempt, c.assertedPrincipal, c.now, Some(c.finishedAt), None)
    else
      var reason := match e.stage
        case PREPARED => "attempt_state=PREPARED"
        case FENCED => "attempt_state=FENCED"
        case RECOVERY_REQUIRED => "attempt_state=RECOVERY_REQUIRED"
        case _ => "";
      Request("record_write", REJECTED, c.assertedAttempt, c.assertedPrincipal, c.now, Some(c.now), Some(reason))
  }

  function Rows(es: seq<Entry>): map<string, Request> {
    if es == [] then map[] else
      var e := es[|es| - 1];
      Rows(es[..|es| - 1])[e.call.request := RowOf(e)]
  }

  /** The audit rows of attempt `a` whose effective writes are `calls`. */
  function Ledger(h: Hashing, a: string, calls: seq<WriteCall>): seq<Event> {
    if calls == [] then [] else
      var n, c := |calls|, calls[|calls| - 1];
      var front := Ledger(h, a, calls[..n - 1]);
      var p := Payload(a, n, c.eventId, "database_write", c.request, "record_write", "candidate_app",
                       Details(c.recordId, c.assertedAttempt, c.assertedPrincipal), c.auditedAt, Tip(front));
      front + [Event(p, h.payload(p))]
  }

  /** The event that the `n`-th effective write of an attempt shows to an observer. */
  function Shown(c: WriteCall, n: nat): ObserverEvent {
    ObserverEvent("database_write", n, c.eventId, c.request, "record_write", "candidate_app",
                  Details(c.recordId, c.assertedAttempt, c.assertedPrincipal))
  }

  function AllShown(calls: seq<WriteCall>): seq<ObserverEvent> {
    seq(|calls|, i requires 0 <= i < |calls| => Shown(calls[i], i + 1))
  }

  function Records(es: seq<Entry>): map<string, Record> {
    if es == [] then map[] else
      var e := es[|es| - 1];
      var before := Records(es[..|es| - 1]);
      if e.stage == OPEN
      then before[e.call.recordId := Record(e.call.value, e.attempt, e.call.request, e.call.now)]
      else before
  }

  // ---------------------------------------------------------------- keeping a journal

  function Put(j: Journal, a: string, x: Life): Journal { j.(lives := j.lives[a := x]) }

  function Note(j: Journal, e: Entry): Journal { j.(entries := j.entries + [e]) }

  ghost function NextWrite(h: Hashing, j: Journal, w: WriteCall): (Journal, Reply) {
    if h.token(w.token) !in j.tokens then (j, Raised(InvalidCredential))
    else
      var a := j.tokens[h.token(w.token)];
      if !Live(j, a) then (j, Raised(StaleCredential))
      else if Used(j.entries, a, w.request) then (j, Raised(RequestConflict))
      else if j.lives[a].stage != OPEN
      then (Note(j, Entry(a, w, j.lives[a].stage)), Wrote(a, w.request, false, None))
      else if w.fault == Some(AuditFailure) then (j, Raised(InjectedFault))
      else if EventUsed(j.entries, w.eventId) then (j, Raised(ConstraintViolation))
      else if w.fault == Some(CrashBeforeCommit) then (j, Raised(InjectedFault))
      else (Note(j, Entry(a, w, OPEN)),
            if w.fault == Some(LostResponse) then Raised(ResponseLoss)
            else Wrote(a, w.request, true, Some(|CallsOf(j.entries, a)| + 1)))
  }

  /** A restart: whatever was prepared, open or fenced has to be recovered, and its seal is void. */
  function Restarted(x: Life): Life {
    if x.stage in {PREPARED, OPEN, FENCED} then x.(stage := RECOVERY_REQUIRED, seal := None) else x
  }

  ghost function NextControl(h: Hashing, j: Journal, op: Op): (Journal, Reply)
    requires !op.Write?
  {
    var refused := (j, Raised(InvalidAttemptState));
    match op
    case Bootstrap => (j.(lives := map a | a in j.lives :: Restarted(j.lives[a])), Done)
    case Create(a, token, now) =>
      if exists b :: Live(j, b) then (j, Raised(ActiveAttemptExists))
      else if a in j.lives || h.token(token) in j.tokens then (j, Raised(ConstraintViolation))
      else (Put(j, a, Life(PREPARED, h.token(token), now, None, None, None, None, 0)).
              (tokens := j.tokens[h.token(token) := a]), Done)
    case Open(a, now) =>
      if In(j, a, PREPARED) then (Put(j, a, j.lives[a].(stage := OPEN, openedAt := Some(now))), Done) else refused
    case Close(a, now) =>
      if In(j, a, OPEN) then (Put(j, a, j.lives[a].(stage := FENCED, fencedAt := Some(now))), Done) else refused
    case AbortRecovery(a, now) =>
      if In(j, a, RECOVERY_REQUIRED) then (Put(j, a, j.lives[a].(stage := ABORTED)), Done) else refused
    case ResetCursor =>
      if exists a :: Live(j, a)
      then var a :| Live(j, a); var n := |CallsOf(j.entries, a)|; (Put(j, a, j.lives[a].(observed := n)), CursorAt(n))
      else refused
    case FinalSnapshot(a) =>
      if !In(j, a, FENCED) then refused else
        var es := EntriesOf(j.entries, a);
        (Put(j, a, j.lives[a].(seal := Some(es))), Sealed(Seal(a, |Calls(es)|, Rows(es), AllShown(Calls(es)))))
    case Finalize(a, now) =>
      if In(j, a, FENCED) && j.lives[a].seal == Some(EntriesOf(j.entries, a))
      then (Put(j, a, j.lives[a].(stage := FINALIZED, finalizedAt := Some(now))), Done)
      else refused
  }

  ghost function Next(h: Hashing, j: Journal, op: Op): (Journal, Reply) {
    if op.Write? then NextWrite(h, j, op.call) else NextControl(h, j, op)
  }

  /** The journal after a whole history of transactions. */
  ghost function Journaled(h: Hashing, j: Journal, ops: seq<Op>): Journal {
    if ops == [] then j else Next(h, Journaled(h, j, ops[..|ops| - 1]), ops[|ops| - 1]).0
  }

  ghost function JournalOf(h: Hashing, ops: seq<Op>): Journal { Journaled(h, BLANK, ops) }
}
