/** Side-effect rules of a tool contract: the merged claims, the violations, observer coverage. */
module EffectRules {
  import opened Options

  datatype Kind =
    NetworkRequest | FilesystemWrite | DatabaseWrite | ProcessExecution | MessageDispatch | CredentialAccess

  datatype Source = ReadOnly | Forbidden | Allowlist(kind: Kind)

  /** An allowlist that is absent says nothing; an empty one denies. */
  datatype Contract = Contract(readOnly: bool, forbidden: seq<Kind>, networks: Option<seq<string>>,
                               writes: Option<seq<string>>, commands: Option<seq<string>>)

  datatype Claim = DenyAll(sources: seq<Source>) | AllowOnly(patterns: seq<string>, sources: seq<Source>)

  datatype Event = Event(kind: Kind, details: map<string, string>)

  datatype Reason = ExplicitlyForbidden | ReadOnlyTool | NotAllowlisted(kind: Kind)

  type Matches = (string, seq<string>) -> bool

  const READ_ONLY_KINDS := [FilesystemWrite, DatabaseWrite, ProcessExecution, MessageDispatch]

  const ALLOWLISTED := [NetworkRequest, FilesystemWrite, ProcessExecution]

  function AllowlistOf(c: Contract, k: Kind): Option<seq<string>> {
    match k
    case NetworkRequest => c.networks
    case FilesystemWrite => c.writes
    case ProcessExecution => c.commands
    case _ => None
  }

  function DetailKey(k: Kind): string {
    match k
    case NetworkRequest => "destination"
    case FilesystemWrite => "path"
    case _ => "command"
  }

  /** The value an allowlist is matched against; a missing detail is the empty string. */
  function Observed(e: Event): string {
    if DetailKey(e.kind) in e.details then e.details[DetailKey(e.kind)] else ""
  }

  // ---------------------------------------------------------------- the rules one by one

  predicate ReadOnlyRule(c: Contract, k: Kind) { c.readOnly && k in READ_ONLY_KINDS }

  predicate ForbiddenRule(c: Contract, k: Kind) { k in c.forbidden }

  predicate AllowlistRule(c: Contract, k: Kind) { AllowlistOf(c, k).Some? }

  predicate HasRule(c: Contract, k: Kind) { ReadOnlyRule(c, k) || ForbiddenRule(c, k) || AllowlistRule(c, k) }

  /** Each rule taken alone: is the event against it? */
  predicate AgainstAllowlist(c: Contract, e: Event, matches: Matches) {
    AllowlistRule(c, e.kind) &&
    var patterns := AllowlistOf(c, e.kind).value;
    patterns == [] || !matches(Observed(e), patterns)
  }

  predicate Flagged(c: Contract, e: Event, matches: Matches) {
    ReadOnlyRule(c, e.kind) || ForbiddenRule(c, e.kind) || AgainstAllowlist(c, e, matches)
  }

  /** The reason reported for a flagged event: the strictest rule speaks. */
  function ReasonFor(c: Contract, e: Event): Reason {
    if ForbiddenRule(c, e.kind) then ExplicitlyForbidden
    else if ReadOnlyRule(c, e.kind) then ReadOnlyTool
    else NotAllowlisted(e.kind)
  }

  // ---------------------------------------------------------------- the merged claims

  /** What the claims say once the read-only rule, the first `n` forbidden kinds and the allowlists
      of the first `m` kinds are merged. */
  ghost predicate Merged(claims: map<Kind, Claim>, c: Contract, n: nat, m: nat)
    requires n <= |c.forbidden| && m <= |ALLOWLISTED|
  {
    forall k :: MergedAt(claims, c, k, ReadOnlyRule(c, k), k in c.forbidden[..n],
                         k in ALLOWLISTED[..m] && AllowlistRule(c, k))
  }

  /** The sources of a claim: each rule about the kind once, in the order of the rules. */
  function SourcesOf(k: Kind, read: bool, forbidden: bool, listed: bool): seq<Source> {
    (if read then [ReadOnly] else []) + (if forbidden then [Forbidden] else [])
    + if listed then [Allowlist(k)] else []
  }

  ghost predicate MergedAt(claims: map<Kind, Claim>, c: Contract, k: Kind, read: bool, forbidden: bool, listed: bool) {
    && (listed ==> AllowlistRule(c, k))
    && (k in claims <==> read || forbidden || listed)
    && (k in claims ==>
          && claims[k].sources == SourcesOf(k, read, forbidden, listed)
          && (claims[k].DenyAll? <==> read || forbidden || (listed && AllowlistOf(c, k).value == []))
          && (claims[k].AllowOnly? ==> claims[k].patterns == AllowlistOf(c, k).value))
  }

  /** `add_deny`. */
  function AddDeny(claims: map<Kind, Claim>, k: Kind, source: Source): map<Kind, Claim> {
    var sources := if k in claims then claims[k].sources else [];
    claims[k := DenyAll(if source in sources then sources else sources + [source])]
  }

  function AddAllowlist(claims: map<Kind, Claim>, k: Kind, patterns: seq<string>): map<Kind, Claim> {
    if patterns == [] then AddDeny(claims, k, Allowlist(k))
    else if k !in claims then claims[k := AllowOnly(patterns, [Allowlist(k)])]
    else if Allowlist(k) in claims[k].sources then claims
    else claims[k := claims[k].(sources := claims[k].sources + [Allowlist(k)])]
  }

  lemma DenyMerged(claims: map<Kind, Claim>, c: Contract, k: Kind, source: Source, read: bool, forbidden: bool)
    requires MergedAt(claims, c, k, read, forbidden, false)
    requires (source == ReadOnly && !forbidden) || source == Forbidden
    ensures MergedAt(AddDeny(claims, k, source), c, k,
                     read || source == ReadOnly, forbidden || source == Forbidden, false)
    ensures forall other :: other != k ==> (other in AddDeny(claims, k, source) <==> other in claims)
    ensures forall other :: other != k && other in claims ==> AddDeny(claims, k, source)[other] == claims[other]
  { }

  lemma AllowlistMerged(claims: map<Kind, Claim>, c: Contract, k: Kind, read: bool, forbidden: bool)
    requires MergedAt(claims, c, k, read, forbidden, false) && AllowlistRule(c, k)
    ensures MergedAt(AddAllowlist(claims, k, AllowlistOf(c, k).value), c, k, read, forbidden, true)
    ensures forall other :: other != k ==>
        (other in AddAllowlist(claims, k, AllowlistOf(c, k).value) <==> other in claims)
    ensures forall other :: other != k && other in claims ==>
              AddAllowlist(claims, k, AllowlistOf(c, k).value)[other] == claims[other]
  { }

  method DenyReadOnlyKinds(c: Contract) returns (claims: map<Kind, Claim>)
    ensures Merged(claims, c, 0, 0)
  {
    claims := map[];
    if c.readOnly {
      for i := 0 to |READ_ONLY_KINDS|
        invariant forall k :: MergedAt(claims, c, k, k in READ_ONLY_KINDS[..i], false, false)
      {
        var kind := READ_ONLY_KINDS[i];
        assert READ_ONLY_KINDS[..i + 1] == READ_ONLY_KINDS[..i] + [kind];
        DenyMerged(claims, c, kind, ReadOnly, kind in READ_ONLY_KINDS[..i], false);
        claims := AddDeny(claims, kind, ReadOnly);
      }
      assert READ_ONLY_KINDS[..|READ_ONLY_KINDS|] == READ_ONLY_KINDS;
    }
  }

  method DenyForbiddenKinds(start: map<Kind, Claim>, c: Contract) returns (claims: map<Kind, Claim>)
    requires Merged(start, c, 0, 0)
    ensures Merged(claims, c, |c.forbidden|, 0)
  {
    claims := start;
    for i := 0 to |c.forbidden|
      invariant Merged(claims, c, i, 0)
    {
      var kind := c.forbidden[i];
      assert c.forbidden[..i + 1] == c.forbidden[..i] + [kind];
      DenyMerged(claims, c, kind, Forbidden, ReadOnlyRule(c, kind), kind in c.forbidden[..i]);
      claims := AddDeny(claims, kind, Forbidden);
    }
  }

  method MergeAllowlists(start: map<Kind, Claim>, c: Contract) returns (claims: map<Kind, Claim>)
    requires Merged(start, c, |c.forbidden|, 0)
    ensures Merged(claims, c, |c.forbidden|, |ALLOWLISTED|)
  {
    claims := start;
    for i := 0 to |ALLOWLISTED|
      invariant Merged(claims, c, |c.forbidden|, i)
    {
      var kind := ALLOWLISTED[i];
      assert ALLOWLISTED[..i + 1] == ALLOWLISTED[..i] + [kind];
      assert kind !in ALLOWLISTED[..i];
      if AllowlistOf(c, kind).Some? {
        assert c.forbidden[..|c.forbidden|] == c.forbidden;
        AllowlistMerged(claims, c, kind, ReadOnlyRule(c, kind), kind in c.forbidden);
        claims := AddAllowlist(claims, kind, AllowlistOf(c, kind).value);
      }
    }
  }

  /** The finished claims: one for every kind that some rule speaks about, denying exactly when a
      rule denies outright, and otherwise holding the allowlist. */
  ghost predicate ClaimsOf(claims: map<Kind, Claim>, c: Contract) {
    forall k :: MergedAt(claims, c, k, ReadOnlyRule(c, k), ForbiddenRule(c, k), AllowlistRule(c, k))
  }

  /** `_effect_claims`; its keys are the required effect kinds. */
  method EffectClaims(c: Contract) returns (claims: map<Kind, Claim>)
    ensures ClaimsOf(claims, c)
    ensures forall k :: k in claims <==> HasRule(c, k)
  {
    claims := DenyReadOnlyKinds(c);
    claims := DenyForbiddenKinds(claims, c);
    claims := MergeAllowlists(claims, c);
    assert c.forbidden[..|c.forbidden|] == c.forbidden && ALLOWLISTED[..|ALLOWLISTED|] == ALLOWLISTED;
    forall k ensures k in ALLOWLISTED[..|ALLOWLISTED|] && AllowlistRule(c, k) <==> AllowlistRule(c, k) {
      assert ALLOWLISTED[0] == NetworkRequest;
      assert ALLOWLISTED[1] == FilesystemWrite && ALLOWLISTED[2] == ProcessExecution;
    }
  }

  // ---------------------------------------------------------------- violations

  datatype Violation = Violation(reason: Reason, event: Event)

  /** The flagged events, in order, each with the reason of the strictest rule it is against. */
  function ViolationsOf(c: Contract, events: seq<Event>, matches: Matches): seq<Violation> {
    if events == [] then []
    else
      var front, last := events[..|events| - 1], events[|events| - 1];
      ViolationsOf(c, front, matches)
      + if Flagged(c, last, matches) then [Violation(ReasonFor(c, last), last)] else []
  }

  /** What one claim says about one event. */
  function Judge(claims: map<Kind, Claim>, e: Event, matches: Matches): Option<Reason> {
    if e.kind !in claims then None
    else
      match claims[e.kind]
      case DenyAll(sources) =>
        Some(if Forbidden in sources then ExplicitlyForbidden
             else if ReadOnly in sources then ReadOnlyTool
             else NotAllowlisted(e.kind))
      case AllowOnly(patterns, _) => if matches(Observed(e), patterns) then None else Some(NotAllowlisted(e.kind))
  }

  /** The merged claims flag an event exactly when some rule taken alone does. */
  lemma MergedEqualsSeparate(claims: map<Kind, Claim>, c: Contract, e: Event, matches: Matches)
    requires ClaimsOf(claims, c)
    ensures Judge(claims, e, matches).Some? <==> Flagged(c, e, matches)
    ensures Flagged(c, e, matches) ==> Judge(claims, e, matches) == Some(ReasonFor(c, e))
  { }

  /** `_side_effect_violations`. */
  method SideEffectViolations(c: Contract, events: seq<Event>, matches: Matches) returns (violations: seq<Violation>)
    ensures violations == ViolationsOf(c, events, matches)
  {
    hide Flagged, ReasonFor, Judge, ClaimsOf;
    var claims := EffectClaims(c);
    violations := [];
    for i := 0 to |events|
      invariant violations == ViolationsOf(c, events[..i], matches)
    {
      assert events[..i + 1][..i] == events[..i];
      MergedEqualsSeparate(claims, c, events[i], matches);
      var reason := Judge(claims, events[i], matches);
      if reason.Some? {
        violations := violations + [Violation(reason.value, events[i])];
      }
    }
    assert events[..|events|] == events;
  }

  /** Contracts that forbid the same kinds, in whatever order and however often each is listed, get
      the very same claims, sources included. */
  lemma ClaimsIgnoreOrder(c: Contract, d: Contract, ofC: map<Kind, Claim>, ofD: map<Kind, Claim>)
    requires d == c.(forbidden := d.forbidden) && forall k :: k in c.forbidden <==> k in d.forbidden
    requires ClaimsOf(ofC, c) && ClaimsOf(ofD, d)
    ensures ofC == ofD
  {
    forall k ensures (k in ofC <==> k in ofD) && (k in ofC ==> ofC[k] == ofD[k]) {
      assert AllowlistOf(c, k) == AllowlistOf(d, k);
      assert MergedAt(ofC, c, k, ReadOnlyRule(c, k), ForbiddenRule(c, k), AllowlistRule(c, k));
      assert MergedAt(ofD, d, k, ReadOnlyRule(d, k), ForbiddenRule(d, k), AllowlistRule(d, k));
    }
  }

  /** So it reports the same violations. */
  lemma {:induction false} DeclarationOrder(c: Contract, d: Contract, events: seq<Event>, matches: Matches)
    requires d == c.(forbidden := d.forbidden) && forall k :: k in c.forbidden <==> k in d.forbidden
    ensures ViolationsOf(c, events, matches) == ViolationsOf(d, events, matches)
  {
    if events != [] {
      DeclarationOrder(c, d, events[..|events| - 1], matches);
      var last := events[|events| - 1];
      assert AllowlistOf(c, last.kind) == AllowlistOf(d, last.kind);
    }
  }

  // ---------------------------------------------------------------- coverage

  /** An observer, the kinds it watches and those it is sure to see all of, if it says so. */
  datatype Observer = Observer(name: string, observes: set<Kind>, complete: Option<set<Kind>>)

  datatype Coverage = Complete | Partial | Unavailable

  function CompleteKinds(o: Observer): set<Kind> { if o.complete.None? then o.observes else o.complete.value }

  predicate Healthy(o: Observer, errors: set<string>) { o.name !in errors }

  predicate SeesAll(observers: seq<Observer>, errors: set<string>, k: Kind) {
    exists i :: 0 <= i < |observers| && Healthy(observers[i], errors) && k in CompleteKinds(observers[i])
  }

  /** `_observer_coverage`. With required kinds, coverage is complete exactly when some observer is
      healthy and each kind has a healthy observer that is sure to see all of it. */
  method ObserverCoverage(observers: seq<Observer>, errors: set<string>, required: Option<set<Kind>>)
    returns (coverage: Coverage)
    ensures coverage == Unavailable <==> forall i :: 0 <= i < |observers| ==> !Healthy(observers[i], errors)
    ensures required.Some? && coverage != Unavailable ==>
              (coverage == Complete <==> forall k :: k in required.value ==> SeesAll(observers, errors, k))
    ensures required.None? && coverage != Unavailable ==>
              (coverage == Complete <==>
                 errors == {} && forall i :: 0 <= i < |observers| ==>
                     observers[i].observes <= CompleteKinds(observers[i]))
  {
    var anyHealthy, partialOnly, covered := false, false, {};
    for i := 0 to |observers|
      invariant anyHealthy <==> exists j :: 0 <= j < i && Healthy(observers[j], errors)
      invariant partialOnly <==>
                  exists j :: 0 <= j < i && Healthy(observers[j], errors)
                              && !(observers[j].observes <= CompleteKinds(observers[j]))
      invariant forall k :: k in covered <==> SeesAll(observers[..i], errors, k)
    {
      assert forall k :: SeesAll(observers[..i + 1], errors, k) <==>
                           || SeesAll(observers[..i], errors, k)
                           || (Healthy(observers[i], errors) && k in CompleteKinds(observers[i]))
      by {
        OneMoreObserver(observers, errors, i);
      }
      if Healthy(observers[i], errors) {
        anyHealthy := true;
        NothingOutside(observers[i].observes, CompleteKinds(observers[i]));
        partialOnly := partialOnly || observers[i].observes - CompleteKinds(observers[i]) != {};
        covered := covered + CompleteKinds(observers[i]);
      }
    }
    assert observers[..|observers|] == observers;
    if !anyHealthy {
      return Unavailable;
    } else if required.None? {
      return if errors != {} || partialOnly then Partial else Complete;
    }
    return if required.value <= covered then Complete else Partial;
  }

  lemma NothingOutside(a: set<Kind>, b: set<Kind>)
    ensures a - b == {} <==> a <= b
  {
    assert forall k :: k in a && k !in b ==> k in a - b;
  }

  lemma OneMoreObserver(observers: seq<Observer>, errors: set<string>, n: nat)
    requires n < |observers|
    ensures forall k :: SeesAll(observers[..n + 1], errors, k) <==>
                          || SeesAll(observers[..n], errors, k)
                          || (Healthy(observers[n], errors) && k in CompleteKinds(observers[n]))
  { }
}
