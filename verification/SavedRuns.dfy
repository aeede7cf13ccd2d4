/** Comparing two saved runs, and the relation "the candidate is accepted against the reference". */
module SavedRuns {
  /** A JSON value, up to the equality that the comparison uses. */
  type Value(==, !new)

  type Hash = string

  datatype Status = Passed | Failed | Errored | Skipped

  datatype Observation = Complete | Partial | Unavailable | NotRequired

  datatype Finding = Finding(status: Status, observation: Observation)

  type Tool = map<string, Value>

  /** A loaded run. The receipt holds its dotted fields that are present and not null. */
  datatype Run = Run(
    receipt: map<string, Value>, findings: map<string, Finding>, tools: map<string, Tool>, inventory: bool)

  const UNSUPPORTED := ["context.logical_target", "context.deployment_identity", "context.credential_principal"]

  const CONTEXT := [
    "context.effective_policy_sha256", "context.identity_profile_sha256", "context.observer_scope_sha256",
    "context.fixture_profile", "runner.version", "runner.mcp_sdk_version", "runner.transport",
    "runner.state_strategy", "runner.protocol_versions", "checks.definition_sha256"
  ]

  const INFORMATIONAL := ["context.contract_source_sha256", "context.target_input_sha256"]

  const UNKNOWN_CAPABLE := [
    "context.deployment_identity", "context.credential_principal", "runner.mcp_sdk_version", "runner.transport",
    "runner.state_strategy", "runner.protocol_versions"
  ]

  /** The fields that loading a run insists on: all compared ones but those that may be unknown. */
  predicate Validated(r: Run) {
    forall f :: f in UNSUPPORTED + CONTEXT && f !in UNKNOWN_CAPABLE ==> f in r.receipt
  }

  // ---------------------------------------------------------------- comparability

  datatype State = Comparable | ChangedContext | Unsupported

  datatype Comparability = Comparability(
    state: State, reasons: set<string>, inputChanges: set<string>, unknown: set<string>)

  predicate Differs(a: map<string, Value>, b: map<string, Value>, f: string) { f in a && f in b && a[f] != b[f] }

  predicate OneSided(a: map<string, Value>, b: map<string, Value>, f: string) {
    f in UNKNOWN_CAPABLE && (f in a) != (f in b)
  }

  predicate Reason(a: map<string, Value>, b: map<string, Value>, f: string) { Differs(a, b, f) || OneSided(a, b, f) }

  function ReasonsAmong(a: map<string, Value>, b: map<string, Value>, fields: seq<string>): set<string> {
    set f | f in fields && Reason(a, b, f)
  }

  function UnknownAmong(a: map<string, Value>, b: map<string, Value>, fields: seq<string>): set<string> {
    set f | f in fields && f in UNKNOWN_CAPABLE && !(f in a && f in b)
  }

  function OneSidedAmong(a: map<string, Value>, b: map<string, Value>, fields: seq<string>): set<string> {
    set f | f in fields && OneSided(a, b, f)
  }

  /** One of the two loops over compared fields; each extends the same four collections. */
  method CompareFields(a: map<string, Value>, b: map<string, Value>, fields: seq<string>)
    returns (reasons: set<string>, unknown: set<string>, asymmetric: set<string>)
    ensures reasons == ReasonsAmong(a, b, fields)
    ensures unknown == UnknownAmong(a, b, fields)
    ensures asymmetric == OneSidedAmong(a, b, fields)
  {
    reasons, unknown, asymmetric := {}, {}, {};
    for i := 0 to |fields|
      invariant reasons == ReasonsAmong(a, b, fields[..i])
      invariant unknown == UnknownAmong(a, b, fields[..i])
      invariant asymmetric == OneSidedAmong(a, b, fields[..i])
    {
      var f := fields[i];
      assert fields[..i + 1] == fields[..i] + [f];
      if f !in a || f !in b {
        if f in UNKNOWN_CAPABLE {
          unknown := unknown + {f};
          if (f in a) != (f in b) {
            reasons := reasons + {f};
            asymmetric := asymmetric + {f};
          }
        }
      } else if a[f] != b[f] {
        reasons := reasons + {f};
      }
    }
    assert fields[..|fields|] == fields;
  }

  /** `_saved_run_comparability`. */
  method SavedRunComparability(a: map<string, Value>, b: map<string, Value>) returns (c: Comparability)
    ensures c == ComparabilityOf(a, b)
  {
    var hard, unknownHard, oneSidedHard := CompareFields(a, b, UNSUPPORTED);
    var soft, unknownSoft, oneSidedSoft := CompareFields(a, b, CONTEXT);
    var inputs := hard + soft;
    for i := 0 to |INFORMATIONAL|
      invariant inputs == hard + soft + set f | f in INFORMATIONAL[..i] && Differs(a, b, f)
    {
      var f := INFORMATIONAL[i];
      assert INFORMATIONAL[..i + 1] == INFORMATIONAL[..i] + [f];
      if f in a && f in b && a[f] != b[f] {
        inputs := inputs + {f};
      }
    }
    assert INFORMATIONAL[..|INFORMATIONAL|] == INFORMATIONAL;
    var state :=
      if oneSidedHard + oneSidedSoft != {} || (exists f :: f in hard + soft && f in UNSUPPORTED) then Unsupported
      else if hard + soft != {} then ChangedContext
      else Comparable;
    return Comparability(state, hard + soft, inputs, unknownHard + unknownSoft);
  }

  function ComparabilityOf(a: map<string, Value>, b: map<string, Value>): Comparability {
    var reasons := ReasonsAmong(a, b, UNSUPPORTED) + ReasonsAmong(a, b, CONTEXT);
    var oneSided := OneSidedAmong(a, b, UNSUPPORTED) + OneSidedAmong(a, b, CONTEXT);
    Comparability(
      if oneSided != {} || (exists f :: f in reasons && f in UNSUPPORTED) then Unsupported
      else if reasons != {} then ChangedContext
      else Comparable,
      reasons,
      reasons + (set f | f in INFORMATIONAL && Differs(a, b, f)),
      UnknownAmong(a, b, UNSUPPORTED) + UnknownAmong(a, b, CONTEXT))
  }

  /** Two runs are comparable exactly when no compared field gives a reason against it. */
  predicate Agree(a: map<string, Value>, b: map<string, Value>) {
    forall f :: f in UNSUPPORTED + CONTEXT ==> !Reason(a, b, f)
  }

  lemma ComparableMeansAgree(a: map<string, Value>, b: map<string, Value>)
    ensures ComparabilityOf(a, b).state == Comparable <==> Agree(a, b)
  {
    var reasons := ReasonsAmong(a, b, UNSUPPORTED) + ReasonsAmong(a, b, CONTEXT);
    var oneSided := OneSidedAmong(a, b, UNSUPPORTED) + OneSidedAmong(a, b, CONTEXT);
    assert forall f :: f in reasons <==> (f in UNSUPPORTED + CONTEXT) && Reason(a, b, f);
    assert forall f :: f in oneSided ==> f in reasons;
    if Agree(a, b) {
      assert reasons == {};
    }
  }

  lemma ComparabilitySymmetric(a: map<string, Value>, b: map<string, Value>)
    ensures ComparabilityOf(a, b) == ComparabilityOf(b, a)
  {
    assert ReasonsAmong(a, b, UNSUPPORTED) == ReasonsAmong(b, a, UNSUPPORTED);
    assert ReasonsAmong(a, b, CONTEXT) == ReasonsAmong(b, a, CONTEXT);
    assert OneSidedAmong(a, b, UNSUPPORTED) == OneSidedAmong(b, a, UNSUPPORTED);
    assert OneSidedAmong(a, b, CONTEXT) == OneSidedAmong(b, a, CONTEXT);
    assert UnknownAmong(a, b, UNSUPPORTED) == UnknownAmong(b, a, UNSUPPORTED);
    assert UnknownAmong(a, b, CONTEXT) == UnknownAmong(b, a, CONTEXT);
    assert (set f | f in INFORMATIONAL && Differs(a, b, f)) == set f | f in INFORMATIONAL && Differs(b, a, f);
  }

  lemma AgreeTransitive(a: Run, b: Run, c: Run)
    requires Validated(b) && Agree(a.receipt, b.receipt) && Agree(b.receipt, c.receipt)
    requires Validated(a) && Validated(c)
    ensures Agree(a.receipt, c.receipt)
  { }

  // ---------------------------------------------------------------- tool inventories

  /** `inputSchema`, or else `input_schema`, or nothing. */
  datatype Schema = NoSchema | SchemaIs(value: Value)

  function SchemaOf(t: Tool): Schema {
    if "inputSchema" in t then SchemaIs(t["inputSchema"])
    else if "input_schema" in t then SchemaIs(t["input_schema"])
    else NoSchema
  }

  function MetadataOf(t: Tool): Tool { map k | k in t && k != "inputSchema" && k != "input_schema" :: t[k] }

  /** `stable_hash` of a schema and of the other entries of a tool. */
  datatype Hashes = Hashes(schema: Schema -> Hash, metadata: Tool -> Hash)

  predicate SameSchema(h: Hashes, a: Tool, b: Tool) { h.schema(SchemaOf(a)) == h.schema(SchemaOf(b)) }

  predicate SameMetadata(h: Hashes, a: Tool, b: Tool) { h.metadata(MetadataOf(a)) == h.metadata(MetadataOf(b)) }

  datatype Inventory = Inventory(
    compared: bool, added: set<string>, removed: set<string>, schemas: set<string>, metadata: set<string>,
    review: bool)

  /** The same tools under the same names, as far as their hashes tell. */
  predicate SameInventory(h: Hashes, a: map<string, Tool>, b: map<string, Tool>) {
    && a.Keys == b.Keys
    && forall name :: name in a ==> SameSchema(h, a[name], b[name]) && SameMetadata(h, a[name], b[name])
  }

  function ChangedSchemas(h: Hashes, a: map<string, Tool>, b: map<string, Tool>, names: set<string>): set<string>
    requires names <= a.Keys && names <= b.Keys
  {
    set n | n in names && !SameSchema(h, a[n], b[n])
  }

  function ChangedMetadata(h: Hashes, a: map<string, Tool>, b: map<string, Tool>, names: set<string>): set<string>
    requires names <= a.Keys && names <= b.Keys
  {
    set n | n in names && !SameMetadata(h, a[n], b[n])
  }

  lemma OneMoreName(h: Hashes, a: map<string, Tool>, b: map<string, Tool>, names: set<string>, n: string)
    requires names <= a.Keys && names <= b.Keys && n in a && n in b
    ensures ChangedSchemas(h, a, b, names + {n}) ==
            ChangedSchemas(h, a, b, names) + (if SameSchema(h, a[n], b[n]) then {} else {n})
    ensures ChangedMetadata(h, a, b, names + {n}) ==
            ChangedMetadata(h, a, b, names) + (if SameMetadata(h, a[n], b[n]) then {} else {n})
  { }

  /** The loop of `_compare_saved_tool_inventory` over the common names, in whatever order. */
  method ChangedTools(h: Hashes, a: map<string, Tool>, b: map<string, Tool>)
    returns (schemas: set<string>, metadata: set<string>)
    ensures schemas == ChangedSchemas(h, a, b, a.Keys * b.Keys)
    ensures metadata == ChangedMetadata(h, a, b, a.Keys * b.Keys)
  {
    schemas, metadata := {}, {};
    var common := a.Keys * b.Keys;
    var done: set<string> := {};
    while done != common
      invariant done <= common
      invariant schemas == ChangedSchemas(h, a, b, done)
      invariant metadata == ChangedMetadata(h, a, b, done)
      decreases common - done
    {
      hide ChangedSchemas, ChangedMetadata;
      assert common - done != {};
      var name :| name in common - done;
      OneMoreName(h, a, b, done, name);
      if !SameSchema(h, a[name], b[name]) {
        schemas := schemas + {name};
      }
      if !SameMetadata(h, a[name], b[name]) {
        metadata := metadata + {name};
      }
      done := done + {name};
    }
  }

  /** `_compare_saved_tool_inventory`. */
  method CompareInventories(h: Hashes, a: Run, b: Run) returns (i: Inventory)
    ensures i == InventoryOf(h, a, b)
  {
    if !a.inventory || !b.inventory {
      return Inventory(false, {}, {}, {}, {}, true);
    }
    var schemas, metadata := ChangedTools(h, a.tools, b.tools);
    var added, removed := b.tools.Keys - a.tools.Keys, a.tools.Keys - b.tools.Keys;
    var review := added != {} || removed != {} || schemas != {} || metadata != {};
    return Inventory(true, added, removed, schemas, metadata, review);
  }

  function InventoryOf(h: Hashes, a: Run, b: Run): Inventory {
    if !a.inventory || !b.inventory then Inventory(false, {}, {}, {}, {}, true)
    else
      var added, removed := b.tools.Keys - a.tools.Keys, a.tools.Keys - b.tools.Keys;
      var schemas := ChangedSchemas(h, a.tools, b.tools, a.tools.Keys * b.tools.Keys);
      var metadata := ChangedMetadata(h, a.tools, b.tools, a.tools.Keys * b.tools.Keys);
      var review := added != {} || removed != {} || schemas != {} || metadata != {};
      Inventory(true, added, removed, schemas, metadata, review)
  }

  /** A review is required exactly when an inventory is missing or the two differ. */
  lemma NoReviewMeansSame(h: Hashes, a: Run, b: Run)
    ensures !InventoryOf(h, a, b).review <==> a.inventory && b.inventory && SameInventory(h, a.tools, b.tools)
  { }

  // ---------------------------------------------------------------- findings

  datatype Conformance = Pass | Fail | Inconclusive | NotTested

  predicate Has(findings: map<string, Finding>, s: Status) { exists id :: id in findings && findings[id].status == s }

  function ConformanceOf(findings: map<string, Finding>): Conformance {
    if Has(findings, Failed) then Fail
    else if Has(findings, Errored) then Inconclusive
    else if Has(findings, Skipped) then NotTested
    else if !Has(findings, Passed) then NotTested
    else Pass
  }

  /** A run passes exactly when it has findings and every one of them passed. */
  predicate AllPassed(findings: map<string, Finding>) {
    findings != map[] && forall id :: id in findings ==> findings[id].status == Passed
  }

  lemma PassMeansAllPassed(findings: map<string, Finding>)
    ensures ConformanceOf(findings) == Pass <==> AllPassed(findings)
  { }

  function Rank(o: Observation): nat
    requires o != NotRequired
  {
    match o case Unavailable => 0 case Partial => 1 case Complete => 2
  }

  predicate ObservationRegressed(before: Observation, after: Observation) {
    if before == NotRequired then after == Partial || after == Unavailable
    else if after == NotRequired then true
    else Rank(after) < Rank(before)
  }

  predicate Worse(before: Observation, after: Observation) { before != after && ObservationRegressed(before, after) }

  /** Not getting worse is a partial order on observations. */
  lemma ObservationOrder(a: Observation, b: Observation, c: Observation)
    ensures !Worse(a, a)
    ensures !Worse(a, b) && !Worse(b, c) ==> !Worse(a, c)
    ensures !Worse(a, b) && !Worse(b, a) ==> a == b
  { }

  // ---------------------------------------------------------------- the comparison

  /** The common checks that went from one status to another. */
  function Moved(a: Run, b: Run, before: Status, after: Status): set<string> {
    set id | id in a.findings.Keys * b.findings.Keys
             && a.findings[id].status == before && b.findings[id].status == after
  }

  /** The common checks that are observed less well. */
  function ObservedWorse(a: Run, b: Run): set<string> {
    set id | id in a.findings.Keys * b.findings.Keys && Worse(a.findings[id].observation, b.findings[id].observation)
  }

  datatype Comparison = Comparison(
    comparability: Comparability, conformance: Conformance,
    newFailures: set<string>, fixedFailures: set<string>, persistentFailures: set<string>,
    newErrors: set<string>, resolvedErrors: set<string>,
    missing: set<string>, newChecks: set<string>, newlySkipped: set<string>, observationRegressions: set<string>,
    inventory: Inventory, hasNewRegression: bool, coverageRegression: bool)

  function Only(comparable: bool, s: set<string>): set<string> { if comparable then s else {} }

  /** `compare_saved_runs`, for the parts that decide the exit code. */
  function CompareSavedRuns(h: Hashes, a: Run, b: Run): Comparison {
    var comparability := ComparabilityOf(a.receipt, b.receipt);
    var comparable := comparability.state == Comparable;
    var common := a.findings.Keys * b.findings.Keys;
    var newFailures := Only(comparable, Moved(a, b, Passed, Failed));
    var newErrors := Only(comparable, Moved(a, b, Passed, Errored));
    var missing := a.findings.Keys - b.findings.Keys;
    var newlySkipped := set id | id in common && b.findings[id].status == Skipped && a.findings[id].status != Skipped;
    var regressions := ObservedWorse(a, b);
    Comparison(
      comparability, ConformanceOf(b.findings),
      newFailures, Only(comparable, Moved(a, b, Failed, Passed)), Only(comparable, Moved(a, b, Failed, Failed)),
      newErrors, Only(comparable, Moved(a, b, Errored, Passed)),
      missing, b.findings.Keys - a.findings.Keys, newlySkipped, regressions,
      InventoryOf(h, a, b),
      comparable && newFailures != {},
      missing != {} || newlySkipped != {} || newErrors != {} || regressions != {} || (a.inventory && !b.inventory))
  }

  /** The exit code of `baseline compare-saved` once both runs are loaded. */
  function ExitCode(c: Comparison): nat {
    if c.comparability.state == Unsupported then 2
    else if
      || c.comparability.state == ChangedContext || c.conformance != Pass
      || c.hasNewRegression || c.coverageRegression || c.inventory.review
    then 1
    else 0
  }

  /** A field that makes the runs incomparable for good: one that is known on one side only, or one
      of those that say what was tested. */
  predicate Hard(a: map<string, Value>, b: map<string, Value>, f: string) {
    OneSided(a, b, f) || (f in UNSUPPORTED && Differs(a, b, f))
  }

  /** The exit code is 2 exactly when some compared field is hard, and otherwise 0 or 1. */
  lemma ExitCodeMeans(h: Hashes, a: Run, b: Run)
    ensures ExitCode(CompareSavedRuns(h, a, b)) == 2 <==>
              exists f :: f in UNSUPPORTED + CONTEXT && Hard(a.receipt, b.receipt, f)
    ensures ExitCode(CompareSavedRuns(h, a, b)) <= 2
  {
    HardMeansUnsupported(a.receipt, b.receipt);
    hide Hard, ComparabilityOf, InventoryOf, ConformanceOf;
  }

  lemma HardMeansUnsupported(a: map<string, Value>, b: map<string, Value>)
    ensures ComparabilityOf(a, b).state == Unsupported <==> exists f :: f in UNSUPPORTED + CONTEXT && Hard(a, b, f)
  {
    var reasons := ReasonsAmong(a, b, UNSUPPORTED) + ReasonsAmong(a, b, CONTEXT);
    var oneSided := OneSidedAmong(a, b, UNSUPPORTED) + OneSidedAmong(a, b, CONTEXT);
    forall f | f in oneSided || (f in reasons && f in UNSUPPORTED)
      ensures f in UNSUPPORTED + CONTEXT && Hard(a, b, f)
    {
    }
    if f :| f in UNSUPPORTED + CONTEXT && Hard(a, b, f) {
      assert f in oneSided || (f in reasons && f in UNSUPPORTED);
    }
  }

  predicate Accepted(h: Hashes, a: Run, b: Run) { ExitCode(CompareSavedRuns(h, a, b)) == 0 }

  /** No check of the reference is missing and none is observed less well. */
  predicate Covers(a: map<string, Finding>, b: map<string, Finding>) {
    forall id :: id in a ==> id in b && !Worse(a[id].observation, b[id].observation)
  }

  /** What acceptance amounts to. */
  lemma AcceptedMeans(h: Hashes, a: Run, b: Run)
    ensures Accepted(h, a, b) <==>
              && Agree(a.receipt, b.receipt)
              && AllPassed(b.findings)
              && Covers(a.findings, b.findings)
              && a.inventory && b.inventory && SameInventory(h, a.tools, b.tools)
  {
    ComparableMeansAgree(a.receipt, b.receipt);
    PassMeansAllPassed(b.findings);
    NoReviewMeansSame(h, a, b);
    CoversMeansNoRegression(a, b);
    hide Agree, InventoryOf, SameInventory, ConformanceOf, ComparabilityOf, Covers;
    var c := CompareSavedRuns(h, a, b);
    if AllPassed(b.findings) {
      assert c.newFailures == {} && c.newErrors == {} && c.newlySkipped == {};
    }
  }

  lemma CoversMeansNoRegression(a: Run, b: Run)
    ensures Covers(a.findings, b.findings) <==>
              && a.findings.Keys - b.findings.Keys == {}
              && ObservedWorse(a, b) == {}
  {
    var missing := a.findings.Keys - b.findings.Keys;
    var regressions := ObservedWorse(a, b);
    if missing == {} && regressions == {} {
      forall id | id in a.findings
        ensures id in b.findings && !Worse(a.findings[id].observation, b.findings[id].observation)
      {
        assert id !in missing && id !in regressions;
      }
    }
  }

  /** Acceptance is transitive: a chain of accepted runs accepts the last against the first. */
  lemma AcceptanceTransitive(h: Hashes, a: Run, b: Run, c: Run)
    requires Validated(a) && Validated(b) && Validated(c)
    ensures Accepted(h, a, b) && Accepted(h, b, c) ==> Accepted(h, a, c)
  {
    AcceptedMeans(h, a, b);
    AcceptedMeans(h, b, c);
    AcceptedMeans(h, a, c);
    hide Accepted, Agree, Validated, Worse, AllPassed;
    if Accepted(h, a, b) && Accepted(h, b, c) {
      AgreeTransitive(a, b, c);
      forall id | id in a.findings
        ensures id in c.findings && !Worse(a.findings[id].observation, c.findings[id].observation)
      {
        ObservationOrder(a.findings[id].observation, b.findings[id].observation, c.findings[id].observation);
      }
    }
  }

  /** A run is accepted against itself exactly when it passes and has an inventory. */
  lemma AcceptanceReflexive(h: Hashes, a: Run)
    ensures Accepted(h, a, a) <==> AllPassed(a.findings) && a.inventory
  {
    AcceptedMeans(h, a, a);
  }

  /** Runs that were not validated may lack a required field, and such a gap breaks the chain: the
      last run is accepted against the middle one but not against the first. */
  lemma GapBreaksTheChain(h: Hashes, a: Run, version: Value)
    requires Validated(a) && Accepted(h, a, a)
    requires "runner.version" in a.receipt && a.receipt["runner.version"] != version
    ensures var gap := a.(receipt := a.receipt - {"runner.version"});
            var last := a.(receipt := a.receipt["runner.version" := version]);
            Validated(last) && Accepted(h, a, gap) && Accepted(h, gap, last) && !Accepted(h, a, last)
  {
    var gap := a.(receipt := a.receipt - {"runner.version"});
    var last := a.(receipt := a.receipt["runner.version" := version]);
    AcceptedMeans(h, a, a);
    AcceptedMeans(h, a, gap);
    AcceptedMeans(h, gap, last);
    AcceptedMeans(h, a, last);
    hide Accepted, SameInventory, AllPassed, Covers;
    assert CONTEXT[4] == "runner.version";
    assert (UNSUPPORTED + CONTEXT)[7] == "runner.version";
    assert Reason(a.receipt, last.receipt, "runner.version");
  }

  /** Exchanging the runs exchanges new and fixed failures, and new and resolved errors. */
  lemma ComparisonMirrored(h: Hashes, a: Run, b: Run)
    ensures var there, back := CompareSavedRuns(h, a, b), CompareSavedRuns(h, b, a);
            && there.comparability == back.comparability
            && there.newFailures == back.fixedFailures && there.newErrors == back.resolvedErrors
            && there.persistentFailures == back.persistentFailures && there.missing == back.newChecks
  {
    ComparabilitySymmetric(a.receipt, b.receipt);
    assert Moved(a, b, Passed, Failed) == Moved(b, a, Failed, Passed);
    assert Moved(a, b, Passed, Errored) == Moved(b, a, Errored, Passed);
    assert Moved(a, b, Failed, Failed) == Moved(b, a, Failed, Failed);
  }
}
