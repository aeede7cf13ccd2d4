/** The hash-chained audit ledger of one attempt: row layout, the validation loop
    that guards both sealing steps, and what a valid chain proves about tampering.

    SHA-256 over canonical JSON is a parameter `digest: Payload -> string`; nothing
    is assumed about it. Theorems that need collision resistance exhibit a collision
    instead of assuming there is none. */
module AuditLedger {
  import opened Options

  type Time = string

  const ZERO_HASH: string := "0000000000000000000000000000000000000000000000000000000000000000"

  datatype Details = Details(recordId: string, assertedAttempt: Option<string>, assertedPrincipal: Option<string>)

  /** Every column of an audit row except the hash itself: exactly what is hashed. */
  datatype Payload = Payload(
    attemptId: string, seqNo: int, eventId: string, kind: string, requestId: string,
    operation: string, principal: string, details: Details, createdAt: Time, prevHash: string)

  datatype Event = Event(payload: Payload, eventHash: string)

  datatype LedgerFault =
    | CountMismatch
    | SequenceGap(row: nat)
    | PreviousHashMismatch(row: nat)
    | EventHashMismatch(row: nat)

  /** The hash a row at index `i` has to name as its predecessor's. */
  function PreviousHash(rows: seq<Event>, i: nat): string
    requires i <= |rows|
  {
    if i == 0 then ZERO_HASH else rows[i - 1].eventHash
  }

  function Tip(rows: seq<Event>): string {
    PreviousHash(rows, |rows|)
  }

  predicate RowLinked(digest: Payload -> string, rows: seq<Event>, i: nat)
    requires i < |rows|
  {
    && rows[i].payload.seqNo == i + 1
    && rows[i].payload.prevHash == PreviousHash(rows, i)
    && digest(rows[i].payload) == rows[i].eventHash
  }

  predicate ValidChain(digest: Payload -> string, rows: seq<Event>) {
    forall i :: 0 <= i < |rows| ==> RowLinked(digest, rows, i)
  }

  predicate LedgerIntact(digest: Payload -> string, watermark: nat, rows: seq<Event>) {
    |rows| == watermark && ValidChain(digest, rows)
  }

  /** The validation loop. It accepts exactly the intact ledgers, and otherwise names the
      first broken row and the first property of that row that is broken. */
  method ValidateLedger(digest: Payload -> string, watermark: nat, rows: seq<Event>)
    returns (fault: Option<LedgerFault>)
    ensures fault.None? <==> LedgerIntact(digest, watermark, rows)
    ensures fault == Some(CountMismatch) <==> |rows| != watermark
    ensures fault.Some? && !fault.value.CountMismatch? ==>
              && fault.value.row < |rows|
              && (forall i :: 0 <= i < fault.value.row ==> RowLinked(digest, rows, i))
              && var row := rows[fault.value.row];
                 match fault.value {
                   case SequenceGap(n) => row.payload.seqNo != n + 1
                   case PreviousHashMismatch(n) =>
                     row.payload.seqNo == n + 1 && row.payload.prevHash != PreviousHash(rows, n)
                   case EventHashMismatch(n) =>
                     && row.payload.seqNo == n + 1 && row.payload.prevHash == PreviousHash(rows, n)
                     && digest(row.payload) != row.eventHash
                 }
  {
    if |rows| != watermark {
      return Some(CountMismatch);
    }
    var previousHash := ZERO_HASH;
    for n := 0 to |rows|
      invariant previousHash == PreviousHash(rows, n)
      invariant forall i :: 0 <= i < n ==> RowLinked(digest, rows, i)
    {
      var row := rows[n];
      assert ValidChain(digest, rows) ==> RowLinked(digest, rows, n);
      if row.payload.seqNo != n + 1 {
        return Some(SequenceGap(n));
      }
      if row.payload.prevHash != previousHash {
        return Some(PreviousHashMismatch(n));
      }
      if digest(row.payload) != row.eventHash {
        return Some(EventHashMismatch(n));
      }
      previousHash := row.eventHash;
    }
    return None;
  }

  ghost predicate Collision(digest: Payload -> string) {
    exists p, q :: p != q && digest(p) == digest(q)
  }

  ghost predicate ZeroPreimage(digest: Payload -> string) {
    exists p :: digest(p) == ZERO_HASH
  }

  /** Tamper evidence: the last hash determines the whole ledger, its length included,
      unless somebody can exhibit a digest collision or a preimage of the zero hash. */
  lemma {:induction false} TipDeterminesLedger(digest: Payload -> string, a: seq<Event>, b: seq<Event>)
    requires ValidChain(digest, a) && ValidChain(digest, b)
    requires Tip(a) == Tip(b)
    ensures a == b || Collision(digest) || ZeroPreimage(digest)
    decreases |a|
  {
    if |a| == 0 && |b| == 0 {
    } else if |a| == 0 || |b| == 0 {
      var c := if |a| == 0 then b else a;
      assert RowLinked(digest, c, |c| - 1);
      assert digest(c[|c| - 1].payload) == ZERO_HASH;
    } else {
      var x, y := a[|a| - 1], b[|b| - 1];
      assert RowLinked(digest, a, |a| - 1) && RowLinked(digest, b, |b| - 1);
      if x.payload == y.payload {
        ChainPrefix(digest, a, |a| - 1);
        ChainPrefix(digest, b, |b| - 1);
        TipDeterminesLedger(digest, a[..|a| - 1], b[..|b| - 1]);
        assert a == a[..|a| - 1] + [x] && b == b[..|b| - 1] + [y];
      } else {
        assert digest(x.payload) == digest(y.payload);
      }
    }
  }

  /** A prefix of a valid chain is a valid chain. */
  lemma ChainPrefix(digest: Payload -> string, rows: seq<Event>, n: nat)
    requires ValidChain(digest, rows) && n <= |rows|
    ensures ValidChain(digest, rows[..n])
  {
    forall i | 0 <= i < n ensures RowLinked(digest, rows[..n], i) {
      assert RowLinked(digest, rows, i);
    }
  }

  /** Appending the row that names the current tip keeps the chain valid. */
  lemma ChainAppend(digest: Payload -> string, rows: seq<Event>, e: Event)
    requires ValidChain(digest, rows)
    requires e.payload.seqNo == |rows| + 1 && e.payload.prevHash == Tip(rows)
    requires digest(e.payload) == e.eventHash
    ensures ValidChain(digest, rows + [e])
  {
    forall i | 0 <= i < |rows| ensures RowLinked(digest, rows + [e], i) {
      assert RowLinked(digest, rows, i);
    }
  }
}
