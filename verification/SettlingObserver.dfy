/** The audit observer that polls an append-only event list until it has settled. */
module SettlingObserver {
  import opened JsonValues
  import opened Options

  /** Times in a unit that no positive wait falls short of, such as the resolution of the clock. */
  type Ticks = int

  const KINDS := {
    "network_request", "filesystem_write", "database_write", "process_execution", "message_dispatch",
    "credential_access"
  }

  datatype Event = Event(kind: string, details: Json)

  datatype Answer = Payload(json: Json) | TimedOut | Failed | Cancelled

  /** One answer of the outside world, and how far the clock moves while it is awaited. */
  datatype Turn = Turn(delay: nat, answer: Answer)

  datatype Problem = NoBaseline | Shrank | Rewritten | Malformed | FetchFailed

  datatype Reason = DeadlinePassed | LastFetchTimedOut | Quiet | SingleFetch

  /** A normal return, an `ObserverCollectionError` with the events accepted so far, or another
      exception. */
  datatype Outcome =
    | Returned(events: seq<Event>, why: Reason)
    | Error(problem: Problem, events: seq<Event>)
    | Raised(answer: Answer)

  /** The list inside a payload: `events` of an object, or the payload itself. */
  function EventsOf(payload: Json): Option<seq<Json>> {
    match payload
    case Dict(fields) => if "events" in fields && fields["events"].List? then Some(fields["events"].items) else None
    case List(items) => Some(items)
    case _ => None
  }

  /** A payload holds exactly one list or none: the one it is, or the one that its object names. */
  lemma EventsOfMeans(payload: Json, items: seq<Json>)
    ensures EventsOf(payload) == Some(items) <==>
              || payload == List(items)
              || (payload.Dict? && "events" in payload.fields && payload.fields["events"] == List(items))
  { }

  predicate WellFormed(raw: Json) {
    raw.Dict? && "kind" in raw.fields && raw.fields["kind"].Str? && raw.fields["kind"].s in KINDS
  }

  function EventOf(raw: Json): Event
    requires WellFormed(raw)
  {
    Event(raw.fields["kind"].s, raw)
  }

  // ---------------------------------------------------------------- what a run may report

  /** `later` extends `earlier` without changing it. */
  predicate Appended(earlier: seq<Json>, later: seq<Json>) {
    |earlier| <= |later| && forall i :: 0 <= i < |earlier| ==> SameJson(later[i], earlier[i])
  }

  /** The event is this entry, or an earlier rendering of the same value. */
  predicate Reports(e: Event, raw: Json) {
    WellFormed(e.details) && e == EventOf(e.details) && (e.details == raw || SameJson(raw, e.details))
  }

  /** The events are, one for one, the entries of the list after the first `base`. */
  predicate Accounts(events: seq<Event>, list: seq<Json>, base: nat) {
    |list| == base + |events| && forall i :: 0 <= i < |events| ==> Reports(events[i], list[base + i])
  }

  function Last(base: seq<Json>, lists: seq<seq<Json>>): seq<Json> { if lists == [] then base else lists[|lists| - 1] }

  /** The lists that completed fetches returned, each an extension of the one before it. */
  ghost predicate Growing(base: seq<Json>, lists: seq<seq<Json>>) {
    lists != [] ==>
      var front := lists[..|lists| - 1];
      Growing(base, front) && Appended(Last(base, front), Last(base, lists))
  }

  lemma AppendedTransitive(a: seq<Json>, b: seq<Json>, c: seq<Json>)
    requires Appended(a, b) && Appended(b, c)
    ensures Appended(a, c)
  {
    forall i | 0 <= i < |a| ensures SameJson(c[i], a[i]) {
      SameTransitive(c[i], b[i], a[i]);
    }
  }

  /** Events that account for one list account for the unchanged part of a longer one. */
  lemma StillAccounted(events: seq<Event>, before: seq<Json>, after: seq<Json>, base: nat)
    requires Accounts(events, before, base) && Appended(before, after)
    ensures Accounts(events, after[..|before|], base)
  {
    forall i | 0 <= i < |events| ensures Reports(events[i], after[..|before|][base + i]) {
      if events[i].details != before[base + i] {
        SameTransitive(after[base + i], before[base + i], events[i].details);
      }
    }
  }

  // ---------------------------------------------------------------- the two helpers

  /** `_append_suffix`: the new entries, or why the list is not an extension of the previous one. */
  method AppendSuffix(raw: seq<Json>, previous: seq<Json>) returns (problem: Option<Problem>, suffix: seq<Json>)
    ensures problem.None? <==> Appended(previous, raw)
    ensures problem.None? ==> raw == raw[..|previous|] + suffix && |raw| == |previous| + |suffix|
    ensures problem == Some(Shrank) <==> |raw| < |previous|
    ensures problem.Some? ==> problem.value in {Shrank, Rewritten}
  {
    if |raw| < |previous| {
      return Some(Shrank), [];
    }
    for i := 0 to |previous|
      invariant forall j :: 0 <= j < i ==> SameJson(raw[j], previous[j])
    {
      if !SameJson(raw[i], previous[i]) {
        return Some(Rewritten), [];
      }
    }
    return None, raw[|previous|..];
  }

  /** `_parse_events`: extends the accepted events by the well-formed entries before the first
      malformed one. */
  method ParseEvents(raws: seq<Json>, events: seq<Event>) returns (ok: bool, after: seq<Event>)
    ensures ok <==> forall i :: 0 <= i < |raws| ==> WellFormed(raws[i])
    ensures events <= after && |after| - |events| <= |raws|
    ensures forall i :: 0 <= i < |after| - |events| ==> WellFormed(raws[i]) && after[|events| + i] == EventOf(raws[i])
    ensures if ok then |after| - |events| == |raws|
            else |after| - |events| < |raws| && !WellFormed(raws[|after| - |events|])
  {
    after := events;
    for i := 0 to |raws|
      invariant |after| == |events| + i && events <= after
      invariant forall j :: 0 <= j < i ==> WellFormed(raws[j]) && after[|events| + j] == EventOf(raws[j])
    {
      if !WellFormed(raws[i]) {
        return false, after;
      }
      after := after + [EventOf(raws[i])];
    }
    return true, after;
  }

  // ---------------------------------------------------------------- the loop

  /** How a fetch ends: cut off, or without a list in what came, or as it was answered. */
  function Ending(t: Turn, timeout: Option<nat>): Answer {
    if timeout.Some? && t.delay > timeout.value then TimedOut
    else if t.answer.Payload? && EventsOf(t.answer.json).None? then Failed
    else t.answer
  }

  /** The clock and the audit service. Every read of the clock and every wait may move it. */
  class World {
    var now: Ticks
    var turn: nat
    const script: nat -> Turn
    /** The lists of the completed fetches, and when each was complete. */
    ghost var lists: seq<seq<Json>>
    ghost var doneAt: seq<Ticks>
    /** How every fetch ended, the failed ones among them. */
    ghost var answers: seq<Answer>

    constructor (start: Ticks, script: nat -> Turn)
      ensures now == start && turn == 0 && this.script == script && lists == [] && doneAt == [] && answers == []
    {
      now, turn, this.script, lists, doneAt, answers := start, 0, script, [], [], [];
    }

    method Time() returns (t: Ticks)
      modifies this`now, this`turn
      ensures t == now == old(now) + script(old(turn)).delay && turn == old(turn) + 1
    {
      now, turn := now + script(turn).delay, turn + 1;
      t := now;
    }

    /** A sleep takes at least as long as asked for. */
    method Sleep(ticks: nat)
      modifies this`now, this`turn
      ensures now >= old(now) + ticks
    {
      now, turn := now + ticks + script(turn).delay, turn + 1;
    }

    /** `_fetch_raw_events`, cut off when it takes longer than the timeout, if there is one. */
    method Fetch(timeout: Option<nat>) returns (answer: Answer, list: seq<Json>)
      modifies this`now, this`turn, this`lists, this`doneAt, this`answers
      ensures now >= old(now) && (timeout.Some? ==> now <= old(now) + timeout.value)
      ensures answer == Ending(script(old(turn)), timeout) && answers == old(answers) + [answer]
      ensures answer.Payload? ==> EventsOf(answer.json) == Some(list)
      ensures answer.Payload? ==> lists == old(lists) + [list] && doneAt == old(doneAt) + [now]
      ensures !answer.Payload? ==> lists == old(lists) && doneAt == old(doneAt)
    {
      var delay;
      answer, delay, list := script(turn).answer, script(turn).delay, [];
      if timeout.Some? && delay > timeout.value {
        answer, delay := TimedOut, timeout.value;
      }
      now, turn := now + delay, turn + 1;
      if answer.Payload? {
        match EventsOf(answer.json)
        case None => answer := Failed;
        case Some(items) =>
          list := items;
          lists, doneAt := lists + [list], doneAt + [now];
      }
      answers := answers + [answer];
    }
  }

  /** What the outcome says about the fetched lists. A normal return means that every list
      extended the one before, and its events account for the last one entry by entry; an error
      names the first thing that went wrong and still hands over every event accepted before. */
  ghost predicate Faithful(outcome: Outcome, base: seq<Json>, lists: seq<seq<Json>>) {
    match outcome
    case Returned(events, _) =>
      Growing(base, lists) && Accounts(events, Last(base, lists), |base|)
    case Raised(answer) => !answer.Payload? && (lists == [] || (answer == Cancelled && Growing(base, lists)))
    case Error(problem, events) =>
      && lists != []
      && Growing(base, lists[..|lists| - 1])
      && FirstProblem(problem, events, |base|, Last(base, lists[..|lists| - 1]), Last(base, lists))
  }

  ghost predicate FirstProblem(problem: Problem, events: seq<Event>, base: nat, before: seq<Json>, last: seq<Json>) {
    match problem
    case Shrank => |last| < |before| && Accounts(events, before, base)
    case Rewritten => |last| >= |before| && !Appended(before, last) && Accounts(events, before, base)
    case Malformed =>
      && Appended(before, last)
      && exists n :: |before| <= n < |last| && !WellFormed(last[n]) && Accounts(events, last[..n], base)
    case FetchFailed => Appended(before, last) && Accounts(events, last, base)
    case NoBaseline => false
  }

  /** The lists are those of the first fetches, and the outcome is what the last fetch makes it: a failure
      is passed on only when it happened, and is all that ends the run with an exception, or with an
      error or a normal return that speaks of a fetch. */
  ghost predicate Answered(outcome: Outcome, lists: seq<seq<Json>>, answers: seq<Answer>) {
    && ListsOf(lists, answers)
    && match outcome
       case Returned(_, why) =>
         if why == LastFetchTimedOut then answers[|lists|..] == [TimedOut] else |answers| == |lists|
       case Raised(answer) => answers[|lists|..] == [answer]
       case Error(problem, _) =>
         if problem == FetchFailed then answers[|lists|..] == [Failed] else |answers| == |lists|
  }

  ghost predicate ListsOf(lists: seq<seq<Json>>, answers: seq<Answer>) {
    && |lists| <= |answers|
    && forall i :: 0 <= i < |lists| ==> answers[i].Payload? && EventsOf(answers[i].json) == Some(lists[i])
  }

  ghost predicate SameLengthFrom(lists: seq<seq<Json>>, k: nat)
    requires k < |lists|
  {
    forall j :: k <= j < |lists| ==> |lists[j]| == |lists[k]|
  }

  /** From some completed fetch on, nothing new came for the quiet period. */
  ghost predicate WasQuiet(now: Ticks, lists: seq<seq<Json>>, doneAt: seq<Ticks>, quiet: Ticks)
    requires |lists| == |doneAt|
  {
    exists k :: 0 <= k < |lists| && now - doneAt[k] >= quiet && SameLengthFrom(lists, k)
  }

  lemma OneListMore(base: seq<Json>, lists: seq<seq<Json>>, list: seq<Json>)
    requires Growing(base, lists)
    ensures Last(base, lists + [list]) == list && (lists + [list])[..|lists|] == lists
    ensures Appended(Last(base, lists), list) <==> Growing(base, lists + [list])
  { }

  /** Every list of a growing stream extends the baseline, which therefore never changed. */
  lemma {:induction false} BaselineKept(base: seq<Json>, lists: seq<seq<Json>>)
    requires Growing(base, lists) && lists != []
    ensures Appended(base, Last(base, lists))
  {
    var front := lists[..|lists| - 1];
    if front != [] {
      BaselineKept(base, front);
      AppendedTransitive(base, Last(base, front), Last(base, lists));
    }
  }

  lemma FirstProblemFaithful(outcome: Outcome, base: seq<Json>, lists: seq<seq<Json>>, list: seq<Json>)
    requires outcome.Error? && Growing(base, lists)
    requires FirstProblem(outcome.problem, outcome.events, |base|, Last(base, lists), list)
    ensures Faithful(outcome, base, lists + [list])
  { }

  /** Parsing the new entries of an extension accounts for the whole extension, or for the part
      before its first malformed entry. */
  lemma ParsedAccounts(
    events: seq<Event>, after: seq<Event>, before: seq<Json>, list: seq<Json>, suffix: seq<Json>, base: nat, n: nat)
    requires Accounts(events, before, base) && Appended(before, list) && list == list[..|before|] + suffix
    requires events <= after && n == |after| - |events| <= |suffix|
    requires forall i :: 0 <= i < n ==> WellFormed(suffix[i]) && after[|events| + i] == EventOf(suffix[i])
    ensures Accounts(after, list[..|before| + n], base)
    ensures n < |suffix| && !WellFormed(suffix[n]) ==> FirstProblem(Malformed, after, base, before, list)
    ensures n == |suffix| ==> Accounts(after, list, base)
  {
    assert n < |suffix| ==> suffix[n] == list[|before| + n];
    assert list[..|list|] == list;
    StillAccounted(events, before, list, base);
    var part := list[..|before| + n];
    forall i | 0 <= i < |after| ensures Reports(after[i], part[base + i]) {
      if i < |events| {
        assert part[base + i] == list[..|before|][base + i];
      } else {
        assert part[base + i] == suffix[i - |events|];
      }
    }
  }

  /** The comparison of a fetched list with the one before it. */
  method CheckExtension(
    list: seq<Json>, previous: seq<Json>, events: seq<Event>, ghost base: seq<Json>, ghost lists: seq<seq<Json>>)
    returns (problem: Option<Problem>, suffix: seq<Json>)
    requires Growing(base, lists) && previous == Last(base, lists) && Accounts(events, previous, |base|)
    ensures problem.None? ==>
              && Appended(previous, list) && Growing(base, lists + [list])
              && list == list[..|previous|] + suffix && |list| == |previous| + |suffix|
    ensures problem.Some? ==>
              problem.value != FetchFailed && Faithful(Error(problem.value, events), base, lists + [list])
  {
    OneListMore(base, lists, list);
    problem, suffix := AppendSuffix(list, previous);
    if problem.Some? {
      SuffixProblem(problem.value, events, previous, list, |base|);
      FirstProblemFaithful(Error(problem.value, events), base, lists, list);
    }
  }

  /** The parsing of the new entries of a list that extends the one before it. */
  method AcceptSuffix(
    list: seq<Json>, previous: seq<Json>, suffix: seq<Json>, events: seq<Event>, ghost base: seq<Json>,
    ghost lists: seq<seq<Json>>)
    returns (ok: bool, after: seq<Event>)
    requires Growing(base, lists) && previous == Last(base, lists) && Accounts(events, previous, |base|)
    requires Appended(previous, list) && list == list[..|previous|] + suffix
    ensures ok ==> Accounts(after, list, |base|)
    ensures !ok ==> Faithful(Error(Malformed, after), base, lists + [list])
  {
    ok, after := ParseEvents(suffix, events);
    ParsedAccounts(events, after, previous, list, suffix, |base|, |after| - |events|);
    if !ok {
      FirstProblemFaithful(Error(Malformed, after), base, lists, list);
    }
  }

  /** No fetch is complete before the first reading of the clock or after the deadline. Successive
      ones are at least a tick apart, and none follows one that left no tick to wait. */
  ghost predicate BeforeDeadline(started: Ticks, settle: Ticks, doneAt: seq<Ticks>) {
    && (forall i :: 0 <= i < |doneAt| ==> started <= doneAt[i] <= started + settle)
    && (forall i, j :: 0 <= i < j < |doneAt| ==> doneAt[i] < doneAt[j])
    && (forall i :: 0 <= i < |doneAt| - 1 ==> doneAt[i] + 1 < started + settle)
  }

  lemma {:induction false} FetchesAreApart(started: Ticks, settle: Ticks, doneAt: seq<Ticks>, i: nat)
    requires BeforeDeadline(started, settle, doneAt) && i < |doneAt|
    ensures doneAt[i] >= started + i
  {
    if i > 0 {
      FetchesAreApart(started, settle, doneAt, i - 1);
    }
  }

  /** So there are never more completed fetches than ticks in the settling window. */
  lemma FetchesAreBounded(started: Ticks, settle: Ticks, doneAt: seq<Ticks>)
    requires BeforeDeadline(started, settle, doneAt) && settle > 0
    ensures |doneAt| <= settle
  {
    if |doneAt| > 1 {
      FetchesAreApart(started, settle, doneAt, |doneAt| - 2);
    }
  }

  /** What a normal return of the settled path says about time. */
  ghost predicate ReturnedFor(
    why: Reason, now: Ticks, started: Ticks, settle: Ticks, quiet: Ticks, lists: seq<seq<Json>>, doneAt: seq<Ticks>)
    requires |lists| == |doneAt|
  {
    match why
    case DeadlinePassed => now >= started + settle
    case LastFetchTimedOut => lists != []
    case Quiet => WasQuiet(now, lists, doneAt, quiet)
    case SingleFetch => false
  }

  ghost predicate AllBefore(doneAt: seq<Ticks>, t: Ticks) { forall i :: 0 <= i < |doneAt| ==> doneAt[i] < t }

  lemma AllBeforeLater(doneAt: seq<Ticks>, t: Ticks, later: Ticks)
    requires AllBefore(doneAt, t) && t <= later
    ensures AllBefore(doneAt, later)
  { }

  lemma AllBeforeNext(doneAt: seq<Ticks>, begun: Ticks, t: Ticks, next: Ticks)
    requires AllBefore(doneAt, begun) && begun <= t < next
    ensures AllBefore(doneAt + [t], next)
  { }

  /** A fetch begun at `begun`, before the deadline, and complete at `t`. */
  lemma OneFetchMore(started: Ticks, settle: Ticks, doneAt: seq<Ticks>, begun: Ticks, t: Ticks)
    requires BeforeDeadline(started, settle, doneAt) && AllBefore(doneAt, begun)
    requires started <= begun <= t <= started + settle && begun < started + settle
    ensures BeforeDeadline(started, settle, doneAt + [t])
  { }

  /** The lists have the length of the one at `grown` since then, which was complete by `since` and
      was the first of its length. */
  ghost predicate Steady(lists: seq<seq<Json>>, doneAt: seq<Ticks>, grown: nat, since: Ticks) {
    && grown < |lists| == |doneAt| && doneAt[grown] <= since && SameLengthFrom(lists, grown)
    && (grown > 0 ==> |lists[grown - 1]| != |lists[grown]|)
    && forall j :: grown < j < |doneAt| ==> since <= doneAt[j]
  }

  /** Nothing came from fetch `k` to fetch `i`. */
  ghost predicate NothingNew(lists: seq<seq<Json>>, k: nat, i: nat)
    requires k <= i < |lists|
  {
    forall j :: k < j <= i ==> |lists[j]| == |lists[j - 1]|
  }

  /** While the first `n` fetches were made there was no quiet period that was over at one of them. */
  ghost predicate NeverQuiet(lists: seq<seq<Json>>, doneAt: seq<Ticks>, quiet: Ticks, n: int)
    requires |lists| == |doneAt| && n <= |doneAt|
  {
    forall k, i :: 0 <= k < i < n && NothingNew(lists, k, i) ==> doneAt[i] - doneAt[k + 1] < quiet
  }

  lemma NotQuietYet(lists: seq<seq<Json>>, doneAt: seq<Ticks>, grown: nat, since: Ticks, now: Ticks, quiet: Ticks)
    requires Steady(lists, doneAt, grown, since) && NeverQuiet(lists, doneAt, quiet, |doneAt| - 1)
    requires now - since < quiet && doneAt[|doneAt| - 1] <= now
    ensures NeverQuiet(lists, doneAt, quiet, |doneAt|)
  {
    var i := |doneAt| - 1;
    forall k | 0 <= k < i && NothingNew(lists, k, i) ensures doneAt[i] - doneAt[k + 1] < quiet {
      NothingNewSince(lists, k, i, grown);
    }
  }

  lemma NothingNewSince(lists: seq<seq<Json>>, k: nat, i: nat, grown: nat)
    requires k <= i < |lists| && NothingNew(lists, k, i) && grown <= i
    requires grown > 0 ==> |lists[grown - 1]| != |lists[grown]|
    ensures grown <= k
  {
  }

  lemma NeverQuietLess(lists: seq<seq<Json>>, doneAt: seq<Ticks>, quiet: Ticks)
    requires |lists| == |doneAt| && NeverQuiet(lists, doneAt, quiet, |doneAt|)
    ensures NeverQuiet(lists, doneAt, quiet, |doneAt| - 1)
  {
  }

  lemma NeverQuietOn(
    lists: seq<seq<Json>>, doneAt: seq<Ticks>, quiet: Ticks, list: seq<Json>, t: Ticks)
    requires |lists| == |doneAt| && NeverQuiet(lists, doneAt, quiet, |doneAt|)
    ensures NeverQuiet(lists + [list], doneAt + [t], quiet, |doneAt|)
  {
    forall k, i | 0 <= k < i < |doneAt| && NothingNew(lists + [list], k, i) ensures doneAt[i] - doneAt[k + 1] < quiet {
      assert NothingNew(lists, k, i) by {
        forall j | k < j <= i ensures |lists[j]| == |lists[j - 1]| {
          assert (lists + [list])[j] == lists[j] && (lists + [list])[j - 1] == lists[j - 1];
        }
      }
    }
  }

  lemma SteadyFromLast(lists: seq<seq<Json>>, doneAt: seq<Ticks>, since: Ticks)
    requires lists != [] && |lists| == |doneAt| && doneAt[|doneAt| - 1] <= since
    requires |lists| > 1 ==> |lists[|lists| - 2]| != |lists[|lists| - 1]|
    ensures Steady(lists, doneAt, |lists| - 1, since)
  { }

  /** A fetch without new entries keeps the lists steady. */
  lemma SteadyOn(lists: seq<seq<Json>>, doneAt: seq<Ticks>, grown: nat, since: Ticks, list: seq<Json>, t: Ticks)
    requires Steady(lists, doneAt, grown, since) && |list| == |lists[|lists| - 1]| && since <= t
    ensures Steady(lists + [list], doneAt + [t], grown, since)
  { }

  lemma SteadyIsQuiet(now: Ticks, lists: seq<seq<Json>>, doneAt: seq<Ticks>, grown: nat, since: Ticks, quiet: Ticks)
    requires Steady(lists, doneAt, grown, since) && now - since >= quiet
    ensures WasQuiet(now, lists, doneAt, quiet)
  {
    assert now - doneAt[grown] >= quiet;
  }

  /** One fetch of the loop, and how the loop ends when it does not complete: a time-out after a
      completed fetch is a normal end, and any other failure then still hands over the events. */
  method FetchNext(world: World, remaining: nat, completed: bool, events: seq<Event>, ghost base: seq<Json>)
    returns (stop: Option<Outcome>, list: seq<Json>)
    requires Growing(base, world.lists) && Accounts(events, Last(base, world.lists), |base|)
    requires completed <==> world.lists != []
    requires ListsOf(world.lists, world.answers) && |world.answers| == |world.lists|
    modifies world`now, world`turn, world`lists, world`doneAt, world`answers
    ensures old(world.now) <= world.now <= old(world.now) + remaining
    ensures stop.None? ==>
              && world.lists == old(world.lists) + [list] && world.doneAt == old(world.doneAt) + [world.now]
              && ListsOf(world.lists, world.answers) && |world.answers| == |world.lists|
    ensures stop.Some? ==>
              && world.lists == old(world.lists) && world.doneAt == old(world.doneAt)
              && Faithful(stop.value, base, world.lists) && Answered(stop.value, world.lists, world.answers)
              && (stop.value.Returned? ==> completed && stop.value.why == LastFetchTimedOut)
  {
    hide Appended, Accounts, Growing, FirstProblem, Faithful;
    var answer;
    answer, list := world.Fetch(Some(remaining));
    if answer.Payload? {
      return None, list;
    } else if answer == Cancelled || !completed {
      RaiseFaithful(answer, base, world.lists);
      return Some(Raised(answer)), list;
    } else if answer == TimedOut {
      ReturnFaithful(events, LastFetchTimedOut, base, world.lists);
      return Some(Returned(events, LastFetchTimedOut)), list;
    }
    FetchFailedFaithful(events, base, world.lists);
    return Some(Error(FetchFailed, events)), list;
  }

  /** What the loop does with a fetched list: compare it, note the time if it brings something new,
      and accept the new entries. */
  method Absorb(
    world: World, list: seq<Json>, previous: seq<Json>, events: seq<Event>, firstSnapshot: bool, quietSince: Ticks,
    ghost grown: nat, ghost base: seq<Json>, ghost lists: seq<seq<Json>>, ghost doneAt: seq<Ticks>, ghost t: Ticks)
    returns (stop: Option<Outcome>, after: seq<Event>, since: Ticks, ghost grownTo: nat)
    requires world.lists == lists + [list] && world.doneAt == doneAt + [t] && t <= world.now && |lists| == |doneAt|
    requires Growing(base, lists) && previous == Last(base, lists) && Accounts(events, previous, |base|)
    requires if firstSnapshot then lists == []
             else lists != [] && Steady(lists, doneAt, grown, quietSince) && quietSince <= t
    modifies world`now, world`turn
    ensures world.now >= old(world.now)
    ensures stop.Some? ==>
              stop.value.Error? && stop.value.problem != FetchFailed && Faithful(stop.value, base, world.lists)
    ensures stop.None? ==>
              && Growing(base, world.lists) && Last(base, world.lists) == list && Accounts(after, list, |base|)
              && Steady(world.lists, world.doneAt, grownTo, since) && since <= world.now
  {
    hide Appended, Accounts, Growing, FirstProblem, WellFormed, Faithful, Steady;
    after, since, grownTo := events, quietSince, grown;
    var problem, suffix := CheckExtension(list, previous, events, base, lists);
    if problem.Some? {
      stop := Some(Error(problem.value, events));
      return;
    }
    if firstSnapshot || suffix != [] {
      since := world.Time();
      grownTo := |lists|;
      SteadyFromLast(world.lists, world.doneAt, since);
    } else {
      SteadyOn(lists, doneAt, grown, quietSince, list, t);
    }
    var parsed;
    parsed, after := AcceptSuffix(list, previous, suffix, events, base, lists);
    stop := if parsed then None else Some(Error(Malformed, after));
  }

  /** Between the first two readings of the clock, taken in turns `turn` and `turn + 1`, the whole
      settling window goes by. */
  ghost predicate LateLook(script: nat -> Turn, turn: nat, settle: Ticks) { script(turn + 1).delay >= settle }

  /** `_collect_settled`. It returns without having fetched anything exactly when the deadline has
      passed at its second look at the clock. */
  method CollectSettled(world: World, initial: seq<Json>, settle: Ticks, quiet: Ticks, poll: Ticks)
    returns (outcome: Outcome, ghost started: Ticks)
    requires settle > 0 && quiet > 0 && poll > 0 && world.lists == [] && world.doneAt == [] && world.answers == []
    modifies world
    ensures Faithful(outcome, initial, world.lists)
    ensures |world.lists| == |world.doneAt| && old(world.now) <= started <= world.now
    ensures BeforeDeadline(started, settle, world.doneAt)
    ensures outcome.Returned? ==>
              ReturnedFor(outcome.why, world.now, started, settle, quiet, world.lists, world.doneAt)
    ensures outcome.Returned? && world.lists == [] <==> LateLook(world.script, old(world.turn), settle)
    ensures Answered(outcome, world.lists, world.answers)
    ensures NeverQuiet(world.lists, world.doneAt, quiet, |world.doneAt| - 1)
  {
    hide Appended, Accounts, Growing, FirstProblem, WellFormed, Faithful, BeforeDeadline, Steady, WasQuiet, AllBefore,
         NeverQuiet, ListsOf;
    NothingYet(initial);
    var first := world.Time();
    started := first;
    var deadline, quietSince := first + settle, first;
    var previous, events, completed := initial, [], false;
    ghost var grown: nat := 0;
    NoFetchYet(started, settle);
    while true
      invariant old(world.now) <= started <= world.now && deadline == started + settle
      invariant BeforeDeadline(started, settle, world.doneAt)
      invariant AllBefore(world.doneAt, world.now)
      invariant completed <==> world.lists != []
      invariant !completed ==> world.turn == old(world.turn) + 1 && world.now == started
      invariant completed ==> !LateLook(world.script, old(world.turn), settle)
      invariant previous == Last(initial, world.lists)
      invariant Growing(initial, world.lists) && Accounts(events, previous, |initial|)
      invariant |world.lists| == |world.doneAt|
      invariant completed ==> Steady(world.lists, world.doneAt, grown, quietSince) && quietSince <= world.now
      invariant NeverQuiet(world.lists, world.doneAt, quiet, |world.doneAt|)
      invariant ListsOf(world.lists, world.answers) && |world.answers| == |world.lists|
      decreases deadline - world.now
    {
      ghost var lists, doneAt, headAt := world.lists, world.doneAt, world.now;
      NeverQuietLess(lists, doneAt, quiet);
      var now := world.Time();
      var remaining := deadline - now;
      if remaining <= 0 {
        ReturnFaithful(events, DeadlinePassed, initial, world.lists);
        outcome := Returned(events, DeadlinePassed);
        return;
      }
      var stop, list := FetchNext(world, remaining, completed, events, initial);
      if stop.Some? {
        outcome := stop.value;
        return;
      }
      var firstSnapshot := !completed;
      completed := true;
      ghost var begun, completedAt := now, world.now;
      AllBeforeLater(doneAt, headAt, begun);
      OneFetchMore(started, settle, doneAt, begun, completedAt);
      NeverQuietOn(lists, doneAt, quiet, list, completedAt);
      stop, events, quietSince, grown := Absorb(world, list, previous, events, firstSnapshot, quietSince, grown,
                                                initial, lists, doneAt, completedAt);
      if stop.Some? {
        outcome := stop.value;
        return;
      }
      previous := list;
      now := world.Time();
      if now >= deadline {
        ReturnFaithful(events, DeadlinePassed, initial, world.lists);
        outcome := Returned(events, DeadlinePassed);
        return;
      }
      if now - quietSince >= quiet {
        SteadyIsQuiet(world.now, world.lists, world.doneAt, grown, quietSince, quiet);
        ReturnFaithful(events, Quiet, initial, world.lists);
        outcome := Returned(events, Quiet);
        return;
      }
      NotQuietYet(world.lists, world.doneAt, grown, quietSince, now, quiet);
      world.Sleep(Max(0, Min(poll, Min(deadline - now, quiet - (now - quietSince)))));
      AllBeforeNext(doneAt, begun, completedAt, world.now);
    }
  }

  lemma NoFetchYet(started: Ticks, settle: Ticks)
    ensures BeforeDeadline(started, settle, []) && AllBefore([], started)
    ensures ListsOf([], []) && forall quiet :: NeverQuiet([], [], quiet, 0) && NeverQuiet([], [], quiet, -1)
  { }

  function Min(a: int, b: int): int { if a <= b then a else b }

  function Max(a: int, b: int): int { if a >= b then a else b }

  lemma NothingYet(base: seq<Json>)
    ensures Growing(base, []) && Accounts([], base, |base|)
  { }

  lemma SuffixProblem(problem: Problem, events: seq<Event>, previous: seq<Json>, list: seq<Json>, base: nat)
    requires Accounts(events, previous, base) && !Appended(previous, list)
    requires problem == if |list| < |previous| then Shrank else Rewritten
    ensures FirstProblem(problem, events, base, previous, list)
  { }

  lemma ReturnFaithful(events: seq<Event>, why: Reason, base: seq<Json>, lists: seq<seq<Json>>)
    requires Growing(base, lists) && Accounts(events, Last(base, lists), |base|)
    ensures Faithful(Returned(events, why), base, lists)
  { }

  lemma RaiseFaithful(answer: Answer, base: seq<Json>, lists: seq<seq<Json>>)
    requires !answer.Payload? && Growing(base, lists) && (lists == [] || answer == Cancelled)
    ensures Faithful(Raised(answer), base, lists)
  { }

  lemma FetchFailedFaithful(events: seq<Event>, base: seq<Json>, lists: seq<seq<Json>>)
    requires lists != [] && Growing(base, lists) && Accounts(events, Last(base, lists), |base|)
    ensures Faithful(Error(FetchFailed, events), base, lists)
  { }

  /** `collect` without a settling window: one fetch, no comparison over time. */
  method CollectOnce(world: World, initial: seq<Json>) returns (outcome: Outcome)
    requires world.lists == [] && world.doneAt == [] && world.answers == []
    modifies world
    ensures Faithful(outcome, initial, world.lists) && Answered(outcome, world.lists, world.answers)
    ensures |world.lists| == |world.doneAt| && (outcome.Returned? ==> |world.lists| == 1)
  {
    hide Accounts, Growing, Appended, FirstProblem, WellFormed;
    var answer, list := world.Fetch(None);
    if !answer.Payload? {
      return Raised(answer);
    }
    hide Faithful;
    NothingYet(initial);
    assert world.lists == [] + [list];
    var problem, suffix := CheckExtension(list, initial, [], initial, []);
    if problem.Some? {
      return Error(problem.value, []);
    }
    var parsed, events := AcceptSuffix(list, initial, suffix, [], initial, []);
    if !parsed {
      return Error(Malformed, events);
    }
    ReturnFaithful(events, SingleFetch, initial, world.lists);
    return Returned(events, SingleFetch);
  }

  /** `collect`: with correlation the events start after the list that `begin` recorded, which
      must be there. With a settling window everything said about it holds. */
  method Collect(
    world: World, correlated: bool, baseline: Option<seq<Json>>, settle: Ticks, quiet: Ticks, poll: Ticks)
    returns (outcome: Outcome, ghost started: Ticks)
    requires settle == 0 || (settle > 0 && quiet > 0 && poll > 0)
    requires world.lists == [] && world.doneAt == [] && world.answers == []
    modifies world
    ensures Answered(outcome, world.lists, world.answers)
    ensures outcome == Error(NoBaseline, []) <==> correlated && baseline.None?
    ensures correlated && baseline.None? ==> world.answers == []
    ensures if correlated && baseline.None? then outcome == Error(NoBaseline, []) && world.lists == []
            else Faithful(outcome, if correlated then baseline.value else [], world.lists)
    ensures |world.lists| == |world.doneAt|
    ensures settle == 0 && outcome.Returned? ==> |world.lists| == 1
    ensures settle > 0 ==> NeverQuiet(world.lists, world.doneAt, quiet, |world.doneAt| - 1)
    ensures settle > 0 ==> BeforeDeadline(started, settle, world.doneAt)
    ensures settle > 0 && outcome.Returned? ==>
              ReturnedFor(outcome.why, world.now, started, settle, quiet, world.lists, world.doneAt)
    ensures outcome.Returned? && world.lists == [] <==>
              settle > 0 && !(correlated && baseline.None?) && LateLook(world.script, old(world.turn), settle)
  {
    started := world.now;
    if correlated && baseline.None? {
      outcome := Error(NoBaseline, []);
      return;
    }
    hide Faithful, BeforeDeadline, ReturnedFor, LateLook;
    var initial := if correlated then baseline.value else [];
    if settle == 0 {
      outcome := CollectOnce(world, initial);
    } else {
      outcome, started := CollectSettled(world, initial, settle, quiet, poll);
    }
  }

  /** Such a run: the process is held up for 200 ticks before the loop first looks, with a window of
      100. The caller is told that there were no effects, although nothing was looked at. */
  method LateLookReportsNothing() returns (outcome: Outcome)
    ensures outcome == Returned([], DeadlinePassed)
  {
    var script := (n: nat) => if n == 1 then Turn(200, Failed) else Turn(0, Failed);
    var world := new World(0, script);
    ghost var started;
    outcome, started := Collect(world, false, None, 100, 40, 10);
    assert LateLook(world.script, 0, 100);
  }

  /** A list is accepted as an extension of itself exactly when no entry holds a NaN, at any depth. */
  lemma ExtensionNeedsNoNaN(list: seq<Json>, more: seq<Json>)
    ensures Appended(list, list + more) <==> forall i :: 0 <= i < |list| ==> !HasNaN(list[i])
  {
    forall i | 0 <= i < |list| ensures SameJson((list + more)[i], list[i]) <==> !HasNaN(list[i]) {
      SameReflexive(list[i]);
    }
  }

  /** So an unchanged list with a NaN in it counts as rewritten. */
  method NaNEntryCountsAsRewritten() returns (problem: Option<Problem>)
    ensures problem == Some(Rewritten)
  {
    var entry := Dict(map["kind" := Str("database_write"), "cost" := Num(NaN)]);
    var suffix;
    problem, suffix := AppendSuffix([entry], [entry]);
    assert HasNaN(entry.fields["cost"]) && HasNaN([entry][0]);
    assert [entry] + [] == [entry];
    ExtensionNeedsNoNaN([entry], []);
  }
}
