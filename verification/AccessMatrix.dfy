/** The access matrix: which identities may call a tool, and when a denial counts as proof. */
module AccessMatrix {
  import opened Options

  type Identity = string

  datatype Authorization = Allow | Deny | Unclear

  datatype Observation = Complete | Partial | Unavailable | NotRequired

  /** What probing the tool with one identity gives. */
  datatype Probe = Probe(authorization: Authorization, allowed: Option<bool>, observation: Observation)

  datatype Status = Passed | Failed | Errored

  datatype Severity = Info | Critical | High | Medium

  datatype Finding = Finding(identity: Identity, status: Status, severity: Severity)

  /** `_authorization_assessment`. A denial of an identity that must be denied passes only with a
      positive control. */
  function Assess(a: Authorization, expected: bool, positive: bool): Status {
    if expected then
      match a case Allow => Passed case Deny => Failed case Unclear => Errored
    else if a == Allow then Failed
    else if a == Deny && positive then Passed
    else Errored
  }

  function StatusOf(p: Probe, expected: bool, positive: bool): Status {
    var status := Assess(p.authorization, expected, positive);
    if p.observation != NotRequired && p.observation != Complete && status != Failed then Errored else status
  }

  function SeverityOf(p: Probe, expected: bool, status: Status): Severity {
    if status == Passed then Info
    else if p.allowed == Some(true) && !expected then Critical
    else if status == Errored then Medium
    else High
  }

  /** `sorted` by "is not permitted": the permitted identities first, each group in its order. */
  function PermittedFirst(ids: seq<Identity>, permitted: set<Identity>): seq<Identity> {
    Chosen(ids, permitted, true) + Chosen(ids, permitted, false)
  }

  function Chosen(ids: seq<Identity>, permitted: set<Identity>, want: bool): seq<Identity> {
    if ids == [] then []
    else (if (ids[0] in permitted) == want then [ids[0]] else []) + Chosen(ids[1..], permitted, want)
  }

  /** The permitted identities that were let in: the positive controls. */
  function Controls(ids: seq<Identity>, permitted: set<Identity>, probe: Identity -> Probe): set<Identity> {
    set id | id in ids && id in permitted && probe(id).authorization == Allow
  }

  /** The verdict on an identity, from the contract and the probes alone. */
  function Verdict(id: Identity, ids: seq<Identity>, permitted: set<Identity>, probe: Identity -> Probe): Finding {
    var expected := id in permitted;
    var status := StatusOf(probe(id), expected, Controls(ids, permitted, probe) != {});
    Finding(id, status, SeverityOf(probe(id), expected, status))
  }

  /** The effects of the probe were watched as far as they had to be. */
  predicate Watched(p: Probe) { p.observation == NotRequired || p.observation == Complete }

  /** Every verdict, told by the probes. A permitted identity fails exactly when it was denied, any other
      exactly when it was let in; passing takes the opposite answer and a watched probe, and for a denial
      a permitted identity that the tool let in. */
  lemma VerdictMeans(id: Identity, ids: seq<Identity>, permitted: set<Identity>, probe: Identity -> Probe)
    ensures var p, f := probe(id), Verdict(id, ids, permitted, probe);
            && f.identity == id
            && (f.status == Failed <==> p.authorization == if id in permitted then Deny else Allow)
            && (f.status == Passed <==>
                  && p.authorization == (if id in permitted then Allow else Deny) && Watched(p)
                  && (id in permitted
                      || exists i :: 0 <= i < |ids| && ids[i] in permitted && probe(ids[i]).authorization == Allow))
            && (f.severity == Info <==> f.status == Passed)
            && (f.severity == Critical <==> f.status != Passed && id !in permitted && p.allowed == Some(true))
            && (f.severity == High ==> f.status == Failed) && (f.severity == Medium ==> f.status == Errored)
  {
    var controls := Controls(ids, permitted, probe);
    if controls != {} {
      var c :| c in controls;
      var i :| 0 <= i < |ids| && ids[i] == c;
      assert ids[i] in permitted;
    }
    if i :| 0 <= i < |ids| && ids[i] in permitted && probe(ids[i]).authorization == Allow {
      assert ids[i] in controls;
    }
  }

  lemma {:induction false} ChosenMembers(ids: seq<Identity>, permitted: set<Identity>, want: bool)
    ensures forall id :: id in Chosen(ids, permitted, want) <==> id in ids && (id in permitted) == want
  {
    if ids != [] {
      ChosenMembers(ids[1..], permitted, want);
    }
  }

  lemma {:induction false} ChosenAll(ids: seq<Identity>, permitted: set<Identity>)
    ensures multiset(PermittedFirst(ids, permitted)) == multiset(ids)
  {
    if ids != [] {
      ChosenAll(ids[1..], permitted);
      assert ids == [ids[0]] + ids[1..];
    }
  }

  lemma SameControls(a: seq<Identity>, b: seq<Identity>, permitted: set<Identity>, probe: Identity -> Probe)
    requires forall x :: x in a <==> x in b
    ensures Controls(a, permitted, probe) == Controls(b, permitted, probe)
  { }

  lemma ControlsStep(ids: seq<Identity>, permitted: set<Identity>, probe: Identity -> Probe, n: nat)
    requires n < |ids|
    ensures Controls(ids[..n + 1], permitted, probe) ==
            Controls(ids[..n], permitted, probe)
            + if ids[n] in permitted && probe(ids[n]).authorization == Allow then {ids[n]} else {}
  { }

  lemma OrderHasAll(ids: seq<Identity>, permitted: set<Identity>)
    ensures |PermittedFirst(ids, permitted)| == |ids|
    ensures multiset(PermittedFirst(ids, permitted)) == multiset(ids)
    ensures forall x :: x in PermittedFirst(ids, permitted) <==> x in ids
  {
    var order := PermittedFirst(ids, permitted);
    ChosenAll(ids, permitted);
    assert |order| == |multiset(order)| && |ids| == |multiset(ids)|;
    assert forall x :: x in order <==> x in multiset(order);
    assert forall x :: x in ids <==> x in multiset(ids);
  }

  /** When a non-permitted identity comes up, every permitted one has been probed. */
  lemma ControlsSoFar(ids: seq<Identity>, permitted: set<Identity>, probe: Identity -> Probe, n: nat)
    requires n < |PermittedFirst(ids, permitted)|
    ensures var order := PermittedFirst(ids, permitted);
            order[n] !in permitted ==> Controls(order[..n], permitted, probe) == Controls(ids, permitted, probe)
  {
    var order, first := PermittedFirst(ids, permitted), Chosen(ids, permitted, true);
    ChosenMembers(ids, permitted, true);
    assert n < |first| ==> order[n] == first[n];
    OrderHasAll(ids, permitted);
    if order[n] !in permitted {
      assert order[..n][..|first|] == first;
      assert forall id :: id in first ==> id in order[..n];
      assert forall id :: id in order[..n] ==> id in order;
    }
  }

  /** The loop over the identities of one tool. Although the positive control is updated on the way,
      every verdict is the one that the contract and the probes determine. */
  method CheckTool(ids: seq<Identity>, permitted: set<Identity>, probe: Identity -> Probe)
    returns (findings: seq<Finding>, positive: bool, controls: set<Identity>)
    ensures var order := PermittedFirst(ids, permitted);
            multiset(order) == multiset(ids) && |order| == |ids| == |findings|
            && forall i :: 0 <= i < |ids| ==> findings[i] == Verdict(order[i], ids, permitted, probe)
    ensures positive <==> Controls(ids, permitted, probe) != {}
    ensures controls == Controls(ids, permitted, probe)
  {
    var order := PermittedFirst(ids, permitted);
    OrderHasAll(ids, permitted);
    hide PermittedFirst, Controls, StatusOf, SeverityOf;
    NoControlsYet(order[..0], permitted, probe);
    findings, positive, controls := [], false, {};
    for i := 0 to |order|
      invariant |findings| == i
      invariant controls == Controls(order[..i], permitted, probe)
      invariant positive <==> controls != {}
      invariant forall j :: 0 <= j < i ==> findings[j] == Verdict(order[j], ids, permitted, probe)
    {
      var id := order[i];
      var expected := id in permitted;
      ControlsStep(order, permitted, probe, i);
      ControlsSoFar(ids, permitted, probe, i);
      if expected && probe(id).authorization == Allow {
        positive := true;
        controls := controls + {id};
      }
      var status := StatusOf(probe(id), expected, positive);
      PermittedIgnoresControl(probe(id), positive, Controls(ids, permitted, probe) != {});
      findings := findings + [Finding(id, status, SeverityOf(probe(id), expected, status))];
    }
    assert order[..|order|] == order;
    SameControls(order, ids, permitted, probe);
  }

  lemma NoControlsYet(ids: seq<Identity>, permitted: set<Identity>, probe: Identity -> Probe)
    requires ids == []
    ensures Controls(ids, permitted, probe) == {}
  { }

  lemma PermittedIgnoresControl(p: Probe, positive: bool, other: bool)
    ensures StatusOf(p, true, positive) == StatusOf(p, true, other)
  { }

  /** The order in which the contract lists its identities changes no verdict. */
  lemma IdentityOrder(
    a: seq<Identity>, b: seq<Identity>, permitted: set<Identity>, probe: Identity -> Probe, id: Identity)
    requires forall x :: x in a <==> x in b
    ensures Verdict(id, a, permitted, probe) == Verdict(id, b, permitted, probe)
  { }

  /** A denial passes only if a permitted identity was let in by the same tool, and it was probed
      before. */
  lemma DenialNeedsControl(ids: seq<Identity>, permitted: set<Identity>, probe: Identity -> Probe, n: nat)
    requires n < |PermittedFirst(ids, permitted)|
    requires PermittedFirst(ids, permitted)[n] !in permitted
    requires Verdict(PermittedFirst(ids, permitted)[n], ids, permitted, probe).status == Passed
    ensures probe(PermittedFirst(ids, permitted)[n]).authorization == Deny
    ensures var order := PermittedFirst(ids, permitted);
            exists k :: 0 <= k < n && order[k] in permitted && probe(order[k]).authorization == Allow
  {
    var order := PermittedFirst(ids, permitted);
    ControlsSoFar(ids, permitted, probe, n);
    var id :| id in Controls(order[..n], permitted, probe);
    var k :| 0 <= k < n && order[..n][k] == id;
    assert order[k] in permitted && probe(order[k]).authorization == Allow;
  }
}
