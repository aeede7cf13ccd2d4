/** The fail-closed cleanup: stop the writers, verify, preserve, delete what may be deleted, and
    report what is left, against an engine whose every command may fail. */
module Cleanup {
  import opened Options
  import opened CleanupWorld

  datatype Problem =
    | RemovalFailed(kind: Kind, name: string)
    | PresenceUnknown(kind: Kind, name: string)
    | ContainersRemain(names: seq<string>)
    | ContainersUnverified(names: seq<string>)

  datatype PreservationProblem =
    | VolumeUnknown(name: string)
    | SkippedForWriter(name: string)
    | CopyFailed(name: string, outcome: CopyOutcome)

  datatype Preservation =
    NotRequested | RequiresRecovery | QuarantinedWriter | NotCreated | Preserved | CopyNotPreserved

  datatype LedgerRow = LedgerRow(kind: Kind, name: string, presence: Presence)

  datatype Report = Report(
    cleanupComplete: bool, preservationComplete: bool,
    fenceAttempted: bool, fenceSucceeded: Option<bool>,
    quarantinedVolumes: seq<string>, cleanupErrors: seq<Problem>, preservationErrors: seq<PreservationProblem>,
    finishOnlyRecovery: bool, writersStopped: bool,
    statePreservation: Preservation, outputPreservation: Preservation, ledger: seq<LedgerRow>)

  /** The resources the caller owns. */
  datatype Owned = Owned(
    containers: seq<string>, networks: seq<string>, volumes: seq<string>, state: string, output: string)

  // ---------------------------------------------------------------- phase by phase

  /** Force-removes every container, then asks about each of them. Only an answer of "absent"
      for every single one counts as stopped. */
  method StopWriters(e: Engine, containers: seq<string>)
    returns (errors: seq<Problem>, stopped: bool)
    modifies e`turn, e`containers, e`volumes, e`removals
    ensures e.OnlyShrinks() && e.volumes.Keys == old(e.volumes.Keys)
    ensures stopped ==> forall c :: c in containers ==> c !in e.containers
    ensures errors == [] ==> stopped
    ensures e.removals == old(e.removals) + Targets(CONTAINER, Reversed(containers))
    ensures old(e.Serving()) ==> errors == [] && stopped
  {
    errors := [];
    for i := |containers| downto 0
      invariant e.OnlyShrinks() && e.volumes.Keys == old(e.volumes.Keys)
      invariant e.removals == old(e.removals) + Targets(CONTAINER, Reversed(containers)[..|containers| - i])
      invariant old(e.Serving()) ==>
                  errors == [] && forall j :: i <= j < |containers| ==> containers[j] !in e.containers
    {
      var r := e.RemoveContainer(containers[i]);
      if !r.ok && !r.saysNoSuch {
        errors := errors + [RemovalFailed(CONTAINER, containers[i])];
      }
    }
    assert Reversed(containers)[..|containers|] == Reversed(containers);
    var remaining: seq<string>, uncertain: seq<string> := [], [];
    for i := 0 to |containers|
      invariant e.OnlyShrinks() && e.volumes.Keys == old(e.volumes.Keys)
      invariant remaining == [] && uncertain == [] ==> forall j :: 0 <= j < i ==> containers[j] !in e.containers
      invariant e.removals == old(e.removals) + Targets(CONTAINER, Reversed(containers))
      invariant old(e.Serving()) ==> errors == [] && remaining == [] && uncertain == []
      invariant old(e.Serving()) ==> forall c :: c in containers ==> c !in e.containers
    {
      var presence, read := e.Inspect(CONTAINER, containers[i]);
      if presence == PRESENT {
        remaining := remaining + [containers[i]];
      } else if presence == UNKNOWN {
        uncertain := uncertain + [containers[i]];
        errors := errors + [PresenceUnknown(CONTAINER, containers[i])];
      }
    }
    stopped := remaining == [] && uncertain == [];
    if remaining != [] {
      errors := errors + [ContainersRemain(remaining)];
    }
    if uncertain != [] {
      errors := errors + [ContainersUnverified(uncertain)];
    }
  }

  /** Looks up one of the two evidence volumes; a volume that was not planned counts as absent. */
  method EvidencePresence(e: Engine, planned: bool, name: string)
    returns (presence: Presence, errors: seq<PreservationProblem>)
    modifies e`turn, e`containers, e`volumes
    ensures e.OnlyShrinks() && e.volumes.Keys == old(e.volumes.Keys)
    ensures !planned ==> presence == ABSENT
    ensures planned && presence == ABSENT ==> name !in e.volumes
    ensures errors == (if presence == UNKNOWN then [VolumeUnknown(name)] else [])
    ensures planned && presence == PRESENT ==> name in e.volumes
    ensures old(e.Serving()) ==> presence != UNKNOWN
  {
    presence, errors := ABSENT, [];
    if planned {
      ghost var read;
      presence, read := e.Inspect(VOLUME, name);
    }
    if presence == UNKNOWN {
      errors := [VolumeUnknown(name)];
    }
  }

  /** The status of a volume that may go. */
  predicate Safe(status: Preservation) { status == NotCreated || status == Preserved }

  /** `ok` is the permission to delete the state volume on the failure path. */
  method PreserveState(e: Engine, stopped: bool, presence: Presence, name: string)
    returns (ok: bool, status: Preservation, errors: seq<PreservationProblem>)
    requires stopped ==> e.containers == {}
    modifies e`turn, e`containers, e`volumes, e`stateCopy
    ensures e.OnlyShrinks() && e.volumes.Keys == old(e.volumes.Keys)
    ensures ok && stopped && presence != ABSENT ==> name in e.volumes && e.stateCopy == Some(e.volumes[name])
    ensures ok ==> presence == ABSENT || (presence == PRESENT && stopped && status == Preserved)
    ensures presence == ABSENT ==> ok && status == NotCreated && errors == []
    ensures presence == PRESENT && !ok ==> errors != []
    ensures ok <==> Safe(status)
    ensures old(e.Copying()) && stopped && presence == PRESENT && name in old(e.volumes) ==> ok && errors == []
  {
    ok, errors := presence == ABSENT, [];
    if presence == UNKNOWN {
      status := RequiresRecovery;
    } else if presence == ABSENT {
      status := NotCreated;
    } else if !stopped {
      status := QuarantinedWriter;
      errors := [SkippedForWriter(name)];
    } else {
      var outcome := e.CopyState(name);
      ok := outcome == Confirmed;
      status := if ok then Preserved else CopyNotPreserved;
      if !ok {
        errors := [CopyFailed(name, outcome)];
      }
    }
  }

  method PreserveOutput(e: Engine, stopped: bool, presence: Presence, name: string)
    returns (ok: bool, status: Preservation, errors: seq<PreservationProblem>)
    requires stopped ==> e.containers == {}
    modifies e`turn, e`containers, e`volumes, e`outputCopy
    ensures e.OnlyShrinks() && e.volumes.Keys == old(e.volumes.Keys)
    ensures ok && stopped && presence != ABSENT ==> name in e.volumes && e.outputCopy == Some(e.volumes[name])
    ensures ok ==> presence == ABSENT || (presence == PRESENT && stopped && status == Preserved)
    ensures presence == ABSENT ==> ok && status == NotCreated && errors == []
    ensures presence == PRESENT && !ok ==> errors != []
    ensures ok <==> Safe(status)
    ensures old(e.Copying()) && stopped && presence == PRESENT && name in old(e.volumes) ==> ok && errors == []
  {
    ok, errors := presence == ABSENT, [];
    if presence == UNKNOWN {
      status := RequiresRecovery;
    } else if presence == ABSENT {
      status := NotCreated;
    } else if !stopped {
      status := QuarantinedWriter;
      errors := [SkippedForWriter(name)];
    } else {
      ok := e.CopyOutput(name);
      status := if ok then Preserved else CopyNotPreserved;
      if !ok {
        errors := [CopyFailed(name, CommandFailed)];
      }
    }
  }

  /** Removes the networks; a failed removal is forgiven only when the network is verifiably gone. */
  method RemoveNetworks(e: Engine, networks: seq<string>, before: seq<Problem>) returns (errors: seq<Problem>)
    modifies e`turn, e`containers, e`volumes, e`networks, e`removals
    ensures e.OnlyShrinks() && e.volumes.Keys == old(e.volumes.Keys)
    ensures before <= errors
    ensures errors == [] ==> forall n :: n in networks ==> n !in e.networks
    ensures e.removals == old(e.removals) + Targets(NETWORK, Reversed(networks))
    ensures old(e.Serving()) ==> errors == before
  {
    errors := before;
    for i := |networks| downto 0
      invariant e.OnlyShrinks() && e.volumes.Keys == old(e.volumes.Keys)
      invariant e.removals == old(e.removals) + Targets(NETWORK, Reversed(networks)[..|networks| - i])
      invariant old(e.Serving()) ==> errors == before
      invariant before <= errors
      invariant errors == [] ==> forall j :: i <= j < |networks| ==> networks[j] !in e.networks
    {
      var ok := e.RemoveNetwork(networks[i]);
      if !ok {
        var presence, read := e.Inspect(NETWORK, networks[i]);
        if presence == PRESENT {
          errors := errors + [RemovalFailed(NETWORK, networks[i])];
        } else if presence == UNKNOWN {
          errors := errors + [PresenceUnknown(NETWORK, networks[i])];
        }
      }
    }
    assert Reversed(networks)[..|networks|] == Reversed(networks);
  }

  /** All volumes but the state volume in reverse, then the state volume. */
  function RemovalOrder(volumes: seq<string>, state: string): seq<string> {
    OthersReversed(volumes, state) + if state in volumes then [state] else []
  }

  function OthersReversed(volumes: seq<string>, state: string): seq<string> {
    if volumes == [] then []
    else OthersReversed(volumes[1..], state) + if volumes[0] != state then [volumes[0]] else []
  }

  lemma OrderCoversVolumes(volumes: seq<string>, state: string)
    ensures state !in OthersReversed(volumes, state)
    ensures forall v :: v in volumes && v != state ==> v in OthersReversed(volumes, state)
    ensures forall v :: v in OthersReversed(volumes, state) ==> v in volumes
    ensures forall v :: v in RemovalOrder(volumes, state) <==> v in volumes
  {
  }

  /** The content a volume had when it was destroyed is in the copy that was made for it. */
  ghost predicate CopiedBeforeLoss(e: Engine, o: Owned, name: string)
    reads e
  {
    name in e.destroyed ==>
      || (name == o.state && e.stateCopy == Some(e.destroyed[name]))
      || (name == o.output && e.outputCopy == Some(e.destroyed[name]))
  }

  /** What makes deleting `name` on the failure path safe: nobody writes any more, and the
      volume is either gone already or copied as it stands. */
  ghost predicate MayLose(e: Engine, o: Owned, stopped: bool, stateOk: bool, outputOk: bool)
    reads e
  {
    && (stopped ==> e.containers == {})
    && (stopped && stateOk && o.state in e.volumes && o.state in o.volumes ==> e.stateCopy == Some(e.volumes[o.state]))
    && (stopped && outputOk && o.output in e.volumes && o.output in o.volumes ==>
          e.outputCopy == Some(e.volumes[o.output]))
  }

  /** On the failure path, whatever volume of evidence was destroyed was copied before, and what may go
      is copied as it stands. */
  ghost predicate PathSafe(e: Engine, o: Owned, preserve: bool, stopped: bool, stateOk: bool, outputOk: bool)
    reads e
  {
    preserve ==>
      && MayLose(e, o, stopped, stateOk, outputOk)
      && CopiedBeforeLoss(e, o, o.state) && CopiedBeforeLoss(e, o, o.output)
      && (!stopped ==> o.state !in e.destroyed && o.output !in e.destroyed)
  }

  predicate MayRemove(o: Owned, name: string, preserve: bool, stopped: bool, stateOk: bool, outputOk: bool) {
    if !preserve then true
    else if !stopped && (name == o.state || name == o.output) then false
    else if name == o.state then stateOk
    else if name == o.output then outputOk
    else true
  }

  /** Those of the volumes that may go on the failure path, in order. */
  function Permitted(names: seq<string>, o: Owned, stopped: bool, stateOk: bool, outputOk: bool): seq<string> {
    if names == [] then [] else
      var name := names[|names| - 1];
      Permitted(names[..|names| - 1], o, stopped, stateOk, outputOk)
      + if MayRemove(o, name, true, stopped, stateOk, outputOk) then [name] else []
  }

  /** An error of the deletion loop about this volume, and not any other cleanup error. */
  predicate About(p: Problem, volume: string) {
    p == RemovalFailed(VOLUME, volume) || p == PresenceUnknown(VOLUME, volume)
  }

  ghost predicate OnlyAbout(errors: seq<Problem>, volume: string) {
    forall i :: 0 <= i < |errors| ==> About(errors[i], volume)
  }

  /** One volume removal, checked by an inspection when it does not report success. */
  method RemoveOneVolume(e: Engine, name: string) returns (problem: Option<Problem>)
    modifies e`turn, e`containers, e`volumes, e`destroyed, e`removals
    ensures e.OnlyShrinks()
    ensures problem.None? ==> name !in e.volumes
    ensures e.removals == old(e.removals) + [Target(VOLUME, name)]
    ensures old(e.Serving()) ==> problem.None?
    ensures name in e.volumes || name !in old(e.volumes) ==> e.destroyed == old(e.destroyed)
    ensures e.destroyed.Keys <= old(e.destroyed.Keys) + {name}
    ensures e.volumes.Keys + e.destroyed.Keys >= old(e.volumes.Keys + e.destroyed.Keys)
    ensures forall v :: v != name && v in e.destroyed ==> e.destroyed[v] == old(e.destroyed)[v]
    ensures old(e.containers) == {} && name in old(e.volumes) && name !in e.volumes ==>
              e.destroyed == old(e.destroyed)[name := old(e.volumes)[name]]
    ensures problem.Some? ==> About(problem.value, name)
  {
    problem := None;
    var ok := e.RemoveVolume(name);
    if !ok {
      var presence, read := e.Inspect(VOLUME, name);
      if presence == PRESENT {
        problem := Some(RemovalFailed(VOLUME, name));
      } else if presence == UNKNOWN {
        problem := Some(PresenceUnknown(VOLUME, name));
      }
    }
  }

  /** One turn of the deletion loop on a volume of the caller's. */
  method DeleteIfAllowed(
    e: Engine, o: Owned, name: string, preserve: bool, stopped: bool, stateOk: bool, outputOk: bool)
    returns (problem: Option<Problem>)
    requires name in o.volumes && PathSafe(e, o, preserve, stopped, stateOk, outputOk)
    modifies e`turn, e`containers, e`volumes, e`destroyed, e`removals
    ensures e.OnlyShrinks() && PathSafe(e, o, preserve, stopped, stateOk, outputOk)
    ensures e.removals == old(e.removals) + if MayRemove(o, name, preserve, stopped, stateOk, outputOk)
                                            then [Target(VOLUME, name)] else []
    ensures old(e.Serving()) ==> problem.None?
    ensures e.volumes.Keys + e.destroyed.Keys >= old(e.volumes.Keys + e.destroyed.Keys)
    ensures e.destroyed.Keys <= old(e.destroyed.Keys) + {name}
    ensures !MayRemove(o, name, preserve, stopped, stateOk, outputOk) ==> e.destroyed == old(e.destroyed)
    ensures problem.None? && MayRemove(o, name, preserve, stopped, stateOk, outputOk) ==> name !in e.volumes
    ensures problem.Some? ==> About(problem.value, name) && MayRemove(o, name, preserve, stopped, stateOk, outputOk)
  {
    problem := None;
    if MayRemove(o, name, preserve, stopped, stateOk, outputOk) {
      problem := RemoveOneVolume(e, name);
    }
  }

  /** The volumes a removal was tried on: on the failure path all that may go, whatever fails; on the normal
      path none after an earlier error, and otherwise all in order, up to the first that fails. */
  ghost predicate Attempted(
    o: Owned, preserve: bool, stopped: bool, stateOk: bool, outputOk: bool,
    before: seq<Problem>, errors: seq<Problem>, tried: seq<string>)
  {
    var order := RemovalOrder(o.volumes, o.state);
    if preserve then tried == Permitted(order, o, stopped, stateOk, outputOk)
    else if before != [] then tried == [] && errors == before
    else if errors == [] then tried == order
    else |errors| == 1 && tried <= order && tried != [] && About(errors[0], tried[|tried| - 1])
  }

  /** The same within the loop, after the volumes `done`. */
  ghost predicate Trying(
    o: Owned, preserve: bool, stopped: bool, stateOk: bool, outputOk: bool,
    before: seq<Problem>, errors: seq<Problem>, stop: bool, tried: seq<string>, done: seq<string>)
  {
    if preserve then !stop && tried == Permitted(done, o, stopped, stateOk, outputOk)
    else if before != [] then stop && tried == [] && errors == before
    else if !stop then errors == [] && tried == done
    else |errors| == 1 && tried <= done && tried != [] && About(errors[0], tried[|tried| - 1])
  }

  lemma TryStart(o: Owned, preserve: bool, stopped: bool, stateOk: bool, outputOk: bool, before: seq<Problem>)
    ensures Trying(o, preserve, stopped, stateOk, outputOk, before, before, before != [] && !preserve, [], [])
  {
  }

  lemma TryNext(
    o: Owned, preserve: bool, stopped: bool, stateOk: bool, outputOk: bool,
    before: seq<Problem>, errors: seq<Problem>, stop: bool, tried: seq<string>, done: seq<string>, name: string)
    requires Trying(o, preserve, stopped, stateOk, outputOk, before, errors, stop, tried, done)
    ensures stop ==> Trying(o, preserve, stopped, stateOk, outputOk, before, errors, stop, tried, done + [name])
    ensures !stop ==>
              var tried' := tried + if MayRemove(o, name, preserve, stopped, stateOk, outputOk) then [name] else [];
              && Trying(o, preserve, stopped, stateOk, outputOk, before, errors, stop, tried', done + [name])
              && forall p: Problem :: MayRemove(o, name, preserve, stopped, stateOk, outputOk) && About(p, name) ==>
                   Trying(o, preserve, stopped, stateOk, outputOk, before, errors + [p], !preserve, tried',
                          done + [name])
  {
    assert (done + [name])[..|done|] == done;
    hide About;
  }

  lemma TryEnd(
    o: Owned, preserve: bool, stopped: bool, stateOk: bool, outputOk: bool,
    before: seq<Problem>, errors: seq<Problem>, stop: bool, tried: seq<string>)
    requires Trying(o, preserve, stopped, stateOk, outputOk, before, errors, stop, tried,
                    RemovalOrder(o.volumes, o.state))
    ensures Attempted(o, preserve, stopped, stateOk, outputOk, before, errors, tried)
  {
  }

  /** The volumes tried are gone, but for those an error tells of; on the normal path that is the last. */
  ghost predicate TriedGone(e: Engine, preserve: bool, clean: bool, tried: seq<string>)
    reads e`volumes
  {
    && (clean ==> forall k :: 0 <= k < |tried| ==> tried[k] !in e.volumes)
    && (!preserve ==> forall k :: 0 <= k < |tried| - 1 ==> tried[k] !in e.volumes)
  }

  /** The deletion loop. On the failure path a volume of evidence is destroyed only with a copy
      of its last contents in place; on the normal path the loop stops at the first removal it
      cannot confirm, so the state volume, which comes last, goes only when all others are gone. */
  method RemoveVolumes(
    e: Engine, o: Owned, preserve: bool, stopped: bool, stateOk: bool, outputOk: bool, before: seq<Problem>)
    returns (errors: seq<Problem>, ghost tried: seq<string>)
    requires e.destroyed == map[] && PathSafe(e, o, preserve, stopped, stateOk, outputOk)
    modifies e`turn, e`containers, e`volumes, e`destroyed, e`removals
    ensures e.OnlyShrinks() && before <= errors
    ensures e.volumes.Keys + e.destroyed.Keys >= old(e.volumes.Keys)
    ensures PathSafe(e, o, preserve, stopped, stateOk, outputOk)
    ensures !preserve && o.state in e.destroyed ==>
              before == [] && forall v :: v in o.volumes && v != o.state ==> v !in e.volumes
    ensures !preserve && o.state in e.destroyed ==> OnlyAbout(errors, o.state)
    ensures !preserve && before != [] ==> errors == before && e.destroyed == map[]
    ensures !preserve ==> |errors| <= |before| + 1
    ensures errors == before && (preserve || before == []) ==>
              forall v :: v in o.volumes && MayRemove(o, v, preserve, stopped, stateOk, outputOk) ==> v !in e.volumes
    ensures e.removals == old(e.removals) + Targets(VOLUME, tried)
    ensures Attempted(o, preserve, stopped, stateOk, outputOk, before, errors, tried)
    ensures old(e.Serving()) ==> errors == before
  {
    errors, tried := DeleteInOrder(e, o, preserve, stopped, stateOk, outputOk, before);
    hide PathSafe, MayRemove, About, Permitted;
    if preserve {
      PermittedHas(RemovalOrder(o.volumes, o.state), o, stopped, stateOk, outputOk);
    }
    OrderCoversVolumes(o.volumes, o.state);
    if !preserve && o.state in e.destroyed {
      StateLast(o, before, errors, tried);
    }
  }

  method DeleteInOrder(
    e: Engine, o: Owned, preserve: bool, stopped: bool, stateOk: bool, outputOk: bool, before: seq<Problem>)
    returns (errors: seq<Problem>, ghost tried: seq<string>)
    requires e.destroyed == map[] && PathSafe(e, o, preserve, stopped, stateOk, outputOk)
    modifies e`turn, e`containers, e`volumes, e`destroyed, e`removals
    ensures e.OnlyShrinks() && before <= errors
    ensures e.volumes.Keys + e.destroyed.Keys >= old(e.volumes.Keys)
    ensures PathSafe(e, o, preserve, stopped, stateOk, outputOk)
    ensures TriedGone(e, preserve, errors == before, tried)
    ensures forall v :: v in e.destroyed ==> v in tried
    ensures e.removals == old(e.removals) + Targets(VOLUME, tried)
    ensures Attempted(o, preserve, stopped, stateOk, outputOk, before, errors, tried)
    ensures old(e.Serving()) ==> errors == before
  {
    hide Trying, Permitted, PathSafe, MayRemove, About, Attempted;
    errors, tried := before, [];
    var stop := before != [] && !preserve;
    var order := RemovalOrder(o.volumes, o.state);
    OrderCoversVolumes(o.volumes, o.state);
    TryStart(o, preserve, stopped, stateOk, outputOk, before);
    hide RemovalOrder;
    for i := 0 to |order|
      invariant e.OnlyShrinks() && before <= errors
      invariant e.volumes.Keys + e.destroyed.Keys >= old(e.volumes.Keys)
      invariant PathSafe(e, o, preserve, stopped, stateOk, outputOk)
      invariant TriedGone(e, preserve, errors == before, tried)
      invariant forall v :: v in e.destroyed ==> v in tried
      invariant e.removals == old(e.removals) + Targets(VOLUME, tried)
      invariant Trying(o, preserve, stopped, stateOk, outputOk, before, errors, stop, tried, order[..i])
      invariant old(e.Serving()) ==> errors == before
    {
      var name := order[i];
      assert order[..i + 1] == order[..i] + [name];
      TryNext(o, preserve, stopped, stateOk, outputOk, before, errors, stop, tried, order[..i], name);
      if !stop {
        TriedClean(o, preserve, stopped, stateOk, outputOk, before, errors, tried, order[..i]);
        var problem := DeleteIfAllowed(e, o, name, preserve, stopped, stateOk, outputOk);
        tried := tried + if MayRemove(o, name, preserve, stopped, stateOk, outputOk) then [name] else [];
        if problem.Some? {
          errors := errors + [problem.value];
          stop := !preserve;
        }
      }
    }
    assert order[..|order|] == order;
    TryEnd(o, preserve, stopped, stateOk, outputOk, before, errors, stop, tried);
  }

  /** While the loop runs on the normal path there is no error. */
  lemma TriedClean(
    o: Owned, preserve: bool, stopped: bool, stateOk: bool, outputOk: bool,
    before: seq<Problem>, errors: seq<Problem>, tried: seq<string>, done: seq<string>)
    requires Trying(o, preserve, stopped, stateOk, outputOk, before, errors, false, tried, done)
    ensures !preserve ==> errors == before
  {
  }

  lemma {:induction false} PermittedHas(names: seq<string>, o: Owned, stopped: bool, stateOk: bool, outputOk: bool)
    ensures forall v :: v in Permitted(names, o, stopped, stateOk, outputOk)
                        <==> v in names && MayRemove(o, v, true, stopped, stateOk, outputOk)
  {
    if names != [] {
      PermittedHas(names[..|names| - 1], o, stopped, stateOk, outputOk);
      assert names == names[..|names| - 1] + [names[|names| - 1]];
    }
    hide MayRemove;
  }

  /** On the normal path the state volume is tried last: all others before, and any error is about it. */
  lemma StateLast(o: Owned, before: seq<Problem>, errors: seq<Problem>, tried: seq<string>)
    requires Attempted(o, false, false, false, false, before, errors, tried) && o.state in tried && before <= errors
    ensures before == [] && tried == RemovalOrder(o.volumes, o.state) && tried[|tried| - 1] == o.state
    ensures OnlyAbout(errors, o.state)
    ensures forall v :: v in o.volumes && v != o.state ==> exists k :: 0 <= k < |tried| - 1 && tried[k] == v
  {
    hide About;
    OrderCoversVolumes(o.volumes, o.state);
    var others := OthersReversed(o.volumes, o.state);
    var k :| 0 <= k < |tried| && tried[k] == o.state;
    assert k == |others|;
    forall v | v in o.volumes && v != o.state ensures exists m :: 0 <= m < |tried| - 1 && tried[m] == v {
      var m :| 0 <= m < |others| && others[m] == v;
      assert tried[m] == v;
    }
  }

  // ---------------------------------------------------------------- the ledger and the report

  /** One ledger row per listing, in the order listed. */
  ghost predicate Lists(rows: seq<LedgerRow>, kind: Kind, names: seq<string>) {
    |rows| == |names| && forall i :: 0 <= i < |rows| ==> rows[i].kind == kind && rows[i].name == names[i]
  }

  ghost predicate AbsenceTrue(e: Engine, rows: seq<LedgerRow>)
    reads e
  {
    forall i :: 0 <= i < |rows| && rows[i].presence == ABSENT ==> !e.Has(rows[i].kind, rows[i].name)
  }

  ghost predicate NoneLeft(e: Engine, kind: Kind, names: seq<string>)
    reads e
  {
    forall i :: 0 <= i < |names| ==> !e.Has(kind, names[i])
  }

  method TakeLedger(e: Engine, kind: Kind, names: seq<string>, before: seq<LedgerRow>) returns (rows: seq<LedgerRow>)
    requires AbsenceTrue(e, before)
    modifies e`turn, e`containers, e`volumes
    ensures e.OnlyShrinks() && e.volumes.Keys == old(e.volumes.Keys)
    ensures |rows| == |before| + |names| && rows[..|before|] == before && Lists(rows[|before|..], kind, names)
    ensures AbsenceTrue(e, rows)
    ensures old(e.Serving() && NoneLeft(e, kind, names)) && AllAbsent(before) ==> AllAbsent(rows)
  {
    rows := before;
    for i := 0 to |names|
      invariant e.OnlyShrinks() && e.volumes.Keys == old(e.volumes.Keys)
      invariant |rows| == |before| + i && rows[..|before|] == before && Lists(rows[|before|..], kind, names[..i])
      invariant AbsenceTrue(e, rows)
      invariant old(NoneLeft(e, kind, names)) ==> NoneLeft(e, kind, names)
      invariant old(e.Serving() && NoneLeft(e, kind, names)) && AllAbsent(before) ==> AllAbsent(rows)
    {
      var presence, read := e.Inspect(kind, names[i]);
      rows := rows + [LedgerRow(kind, names[i], presence)];
    }
    assert names[..|names|] == names;
  }

  predicate AllAbsent(rows: seq<LedgerRow>) {
    forall i :: 0 <= i < |rows| ==> rows[i].presence == ABSENT
  }

  function NamesOf(rows: seq<LedgerRow>, presence: Presence): seq<string> {
    if rows == [] then []
    else (if rows[0].presence == presence then [rows[0].name] else []) + NamesOf(rows[1..], presence)
  }

  function Quarantined(rows: seq<LedgerRow>): seq<string> {
    if rows == [] then []
    else (if rows[0].kind == VOLUME && rows[0].presence == PRESENT then [rows[0].name] else []) + Quarantined(rows[1..])
  }

  lemma NamesOfEmpty(rows: seq<LedgerRow>)
    ensures NamesOf(rows, PRESENT) == [] && NamesOf(rows, UNKNOWN) == [] <==> AllAbsent(rows)
    ensures Quarantined(rows) != [] ==> NamesOf(rows, PRESENT) != []
  {
  }

  lemma {:induction false} QuarantinedAre(rows: seq<LedgerRow>, v: string)
    ensures v in Quarantined(rows) <==> LedgerRow(VOLUME, v, PRESENT) in rows
  {
    if rows != [] {
      QuarantinedAre(rows[1..], v);
      assert rows == [rows[0]] + rows[1..];
    }
  }

  /** Every resource the caller owns is gone. */
  ghost predicate AllGone(e: Engine, o: Owned)
    reads e
  {
    && (forall c :: c in o.containers ==> c !in e.containers)
    && (forall n :: n in o.networks ==> n !in e.networks)
    && (forall v :: v in o.volumes ==> v !in e.volumes)
  }

  /** The content of an evidence volume that existed at the start is still somewhere: in the
      volume, or in the copy made before the volume was destroyed. */
  ghost predicate NotLost(e: Engine, o: Owned, name: string)
    reads e
  {
    name in e.volumes || (name in e.destroyed && CopiedBeforeLoss(e, o, name))
  }

  /** The copy made for an evidence volume is its last content. */
  ghost predicate LastContentCopied(e: Engine, o: Owned, name: string)
    reads e
  {
    if name in e.volumes then
      || (name == o.state && e.stateCopy == Some(e.volumes[name]))
      || (name == o.output && e.outputCopy == Some(e.volumes[name]))
    else name in e.destroyed && CopiedBeforeLoss(e, o, name)
  }

  /** One row per container listed, then per network, then per volume. */
  ghost predicate ListsAll(rows: seq<LedgerRow>, o: Owned) {
    var n1, n2 := |o.containers|, |o.containers| + |o.networks|;
    && |rows| == n2 + |o.volumes|
    && Lists(rows[..n1], CONTAINER, o.containers)
    && Lists(rows[n1..n2], NETWORK, o.networks)
    && Lists(rows[n2..], VOLUME, o.volumes)
  }

  lemma LedgerGone(e: Engine, o: Owned, rows: seq<LedgerRow>)
    requires ListsAll(rows, o) && AbsenceTrue(e, rows)
    ensures AllAbsent(rows) ==> AllGone(e, o)
  {
    var n1, n2 := |o.containers|, |o.containers| + |o.networks|;
    if AllAbsent(rows) {
      forall c | c in o.containers ensures c !in e.containers {
        var i :| 0 <= i < |o.containers| && o.containers[i] == c;
        assert rows[i] == rows[..n1][i];
      }
      forall n | n in o.networks ensures n !in e.networks {
        var i :| 0 <= i < |o.networks| && o.networks[i] == n;
        assert rows[n1 + i] == rows[n1..n2][i];
      }
      forall v | v in o.volumes ensures v !in e.volumes {
        var i :| 0 <= i < |o.volumes| && o.volumes[i] == v;
        assert rows[n2 + i] == rows[n2..][i];
      }
    }
  }

  method FullLedger(e: Engine, o: Owned) returns (rows: seq<LedgerRow>)
    modifies e`turn, e`containers, e`volumes
    ensures e.OnlyShrinks() && e.volumes.Keys == old(e.volumes.Keys)
    ensures ListsAll(rows, o)
    ensures AllAbsent(rows) ==> AllGone(e, o)
    ensures old(e.Serving() && AllGone(e, o)) ==> AllAbsent(rows)
  {
    var a := TakeLedger(e, CONTAINER, o.containers, []);
    var b := TakeLedger(e, NETWORK, o.networks, a);
    rows := TakeLedger(e, VOLUME, o.volumes, b);
    var n1, n2 := |o.containers|, |o.containers| + |o.networks|;
    assert a[0..] == a && rows[..n1] == b[..n1] == a && rows[n1..n2] == b[n1..];
    hide Lists, AbsenceTrue;
    assert ListsAll(rows, o);
    LedgerGone(e, o, rows);
  }

  datatype Evidence = Evidence(
    stateOk: bool, outputOk: bool, state: Preservation, output: Preservation, errors: seq<PreservationProblem>)

  predicate AbsenceKnown(e: Engine, o: Owned, name: string, presence: Presence)
    reads e
  {
    presence == ABSENT && name in o.volumes ==> name !in e.volumes
  }

  /** The two copies, made only once the writers are known to be gone. */
  method PreserveBoth(e: Engine, o: Owned, stopped: bool, statePresence: Presence, outputPresence: Presence)
    returns (x: Evidence)
    requires stopped ==> e.containers == {}
    requires AbsenceKnown(e, o, o.state, statePresence) && AbsenceKnown(e, o, o.output, outputPresence)
    modifies e`turn, e`containers, e`volumes, e`stateCopy, e`outputCopy
    ensures e.OnlyShrinks() && e.volumes.Keys == old(e.volumes.Keys)
    ensures MayLose(e, o, stopped, x.stateOk, x.outputOk)
    ensures stopped && !x.stateOk && statePresence == PRESENT ==> x.errors != []
    ensures stopped && !x.outputOk && outputPresence == PRESENT ==> x.errors != []
    ensures (statePresence == ABSENT ==> x.stateOk) && (outputPresence == ABSENT ==> x.outputOk)
    ensures (x.stateOk <==> Safe(x.state)) && (x.outputOk <==> Safe(x.output))
    ensures && old(e.Copying()) && stopped && statePresence != UNKNOWN && outputPresence != UNKNOWN
            && (statePresence == PRESENT ==> o.state in old(e.volumes))
            && (outputPresence == PRESENT ==> o.output in old(e.volumes))
            ==> x.stateOk && x.outputOk && x.errors == []
  {
    var stateOk, stateStatus, stateProblems := PreserveState(e, stopped, statePresence, o.state);
    var outputOk, outputStatus, outputProblems := PreserveOutput(e, stopped, outputPresence, o.output);
    return Evidence(stateOk, outputOk, stateStatus, outputStatus, stateProblems + outputProblems);
  }

  /** The preservation phase: both volumes are looked up on every path, and copied only on the
      failure path. */
  method PreserveEvidence(e: Engine, o: Owned, preserve: bool, stopped: bool) returns (x: Evidence)
    requires (stopped ==> e.containers == {}) && e.destroyed == map[]
    modifies e`turn, e`containers, e`volumes, e`stateCopy, e`outputCopy
    ensures e.OnlyShrinks() && e.volumes.Keys == old(e.volumes.Keys)
    ensures PathSafe(e, o, preserve, stopped, x.stateOk, x.outputOk)
    ensures preserve && !(x.stateOk && x.outputOk) && stopped ==> x.errors != []
    ensures preserve ==> (x.stateOk <==> Safe(x.state)) && (x.outputOk <==> Safe(x.output))
    ensures old(e.Serving()) && !preserve ==> x.errors == []
    ensures old(e.Serving() && e.Copying()) && preserve && stopped ==> x.stateOk && x.outputOk && x.errors == []
  {
    var statePresence, stateErrors := EvidencePresence(e, o.state in o.volumes, o.state);
    var outputPresence, outputErrors := EvidencePresence(e, o.output in o.volumes, o.output);
    x := Evidence(statePresence == ABSENT, outputPresence == ABSENT, NotRequested, NotRequested,
                  stateErrors + outputErrors);
    if preserve {
      hide MayLose;
      x := PreserveBoth(e, o, stopped, statePresence, outputPresence);
      x := x.(errors := stateErrors + outputErrors + x.errors);
    }
  }

  /** What the cleanup tries to remove: every container, then every network, each in reverse, then the
      volumes `tried`. */
  ghost function AllTargets(o: Owned, tried: seq<string>): seq<Target> {
    Targets(CONTAINER, Reversed(o.containers)) + Targets(NETWORK, Reversed(o.networks)) + Targets(VOLUME, tried)
  }

  /** The volumes tried, told by the report: on the failure path all but an evidence volume that is
      not safe or may still be written; on the normal path all in order, up to the first error. */
  ghost predicate Attempts(
    o: Owned, preserve: bool, stopped: bool, state: Preservation, output: Preservation, errors: seq<Problem>,
    tried: seq<string>)
  {
    var order := RemovalOrder(o.volumes, o.state);
    if preserve then
      && tried == Permitted(order, o, stopped, Safe(state), Safe(output))
      && forall v :: v in tried <==>
           v in o.volumes && if v == o.state then stopped && Safe(state)
                             else if v == o.output then stopped && Safe(output) else true
    else if errors == [] then tried == order
    else tried <= order && (tried != [] ==> |errors| == 1 && About(errors[0], tried[|tried| - 1]))
  }

  /** Removing the networks leaves what is safe to delete as it was. */
  method RemoveOwnNetworks(
    e: Engine, o: Owned, preserve: bool, stopped: bool, ghost x: Evidence, before: seq<Problem>)
    returns (errors: seq<Problem>)
    requires PathSafe(e, o, preserve, stopped, x.stateOk, x.outputOk)
    modifies e`turn, e`containers, e`volumes, e`networks, e`removals
    ensures e.OnlyShrinks() && e.volumes.Keys == old(e.volumes.Keys)
    ensures PathSafe(e, o, preserve, stopped, x.stateOk, x.outputOk)
    ensures before <= errors
    ensures errors == [] ==> forall n :: n in o.networks ==> n !in e.networks
    ensures e.removals == old(e.removals) + Targets(NETWORK, Reversed(o.networks))
    ensures old(e.Serving()) ==> errors == before
  {
    errors := RemoveNetworks(e, o.networks, before);
  }

  /** The removal of networks and volumes, after the earlier errors `before`. */
  method RemoveRest(
    e: Engine, o: Owned, preserve: bool, stopped: bool, x: Evidence, before: seq<Problem>)
    returns (errors: seq<Problem>, ghost tried: seq<string>)
    requires PathSafe(e, o, preserve, stopped, x.stateOk, x.outputOk) && e.destroyed == map[]
    requires preserve ==> (x.stateOk <==> Safe(x.state)) && (x.outputOk <==> Safe(x.output))
    modifies e`turn, e`containers, e`volumes, e`networks, e`destroyed, e`removals
    ensures e.OnlyShrinks() && e.volumes.Keys + e.destroyed.Keys >= old(e.volumes.Keys)
    ensures PathSafe(e, o, preserve, stopped, x.stateOk, x.outputOk)
    ensures before <= errors
    ensures !preserve && o.state in e.destroyed ==>
              && before == [] && OnlyAbout(errors, o.state) && (forall n :: n in o.networks ==> n !in e.networks)
              && forall v :: v in o.volumes && v != o.state ==> v !in e.volumes
    ensures errors == [] ==> forall n :: n in o.networks ==> n !in e.networks
    ensures errors == [] ==>
              forall v :: v in o.volumes && MayRemove(o, v, preserve, stopped, x.stateOk, x.outputOk)
                          ==> v !in e.volumes
    ensures e.removals == old(e.removals) + Targets(NETWORK, Reversed(o.networks)) + Targets(VOLUME, tried)
    ensures Attempts(o, preserve, stopped, x.state, x.output, errors, tried)
    ensures old(e.Serving()) ==> errors == before
  {
    hide PathSafe, Attempted, RemovalOrder, Permitted, About, MayRemove, Targets, OnlyAbout;
    errors := RemoveOwnNetworks(e, o, preserve, stopped, x, before);
    ghost var earlier := errors;
    errors, tried := RemoveVolumes(e, o, preserve, stopped, x.stateOk, x.outputOk, errors);
    AttemptedReported(o, preserve, stopped, x, earlier, errors, tried);
    hide Attempts;
  }

  /** Stop, preserve, delete: everything the cleanup does to the engine before it takes stock. */
  method Dismantle(e: Engine, o: Owned, preserve: bool)
    returns (errors: seq<Problem>, stopped: bool, x: Evidence, ghost tried: seq<string>)
    requires e.destroyed == map[] && forall c :: c in e.containers ==> c in o.containers
    modifies e
    ensures e.OnlyShrinks() && e.volumes.Keys + e.destroyed.Keys >= old(e.volumes.Keys)
    ensures errors == [] ==> stopped
    ensures stopped ==> e.containers == {}
    ensures PathSafe(e, o, preserve, stopped, x.stateOk, x.outputOk)
    ensures preserve && !(x.stateOk && x.outputOk) && stopped ==> x.errors != []
    ensures !preserve && o.state in e.destroyed ==> stopped && OthersGone(e, o) && OnlyAbout(errors, o.state)
    ensures errors == [] && (preserve ==> x.stateOk && x.outputOk) ==> AllGone(e, o)
    ensures e.removals == old(e.removals) + AllTargets(o, tried)
    ensures Attempts(o, preserve, stopped, x.state, x.output, errors, tried)
    ensures old(e.Serving()) ==> errors == [] && (!preserve || old(e.Copying()) ==> x.errors == [])
    ensures old(e.Serving() && e.Copying()) && preserve ==> x.stateOk && x.outputOk
  {
    hide Attempts, PathSafe, OnlyAbout, Targets;
    errors, stopped := StopWriters(e, o.containers);
    assert stopped ==> e.containers == {};
    x := PreserveEvidence(e, o, preserve, stopped);
    errors, tried := RemoveRest(e, o, preserve, stopped, x, errors);
  }

  lemma AttemptedReported(
    o: Owned, preserve: bool, stopped: bool, x: Evidence, before: seq<Problem>, errors: seq<Problem>,
    tried: seq<string>)
    requires Attempted(o, preserve, stopped, x.stateOk, x.outputOk, before, errors, tried) && before <= errors
    requires preserve ==> (x.stateOk <==> Safe(x.state)) && (x.outputOk <==> Safe(x.output))
    ensures Attempts(o, preserve, stopped, x.state, x.output, errors, tried)
  {
    if preserve {
      PermittedHas(RemovalOrder(o.volumes, o.state), o, stopped, x.stateOk, x.outputOk);
      OrderCoversVolumes(o.volumes, o.state);
    }
    hide RemovalOrder, Permitted, About;
  }

  /** Every owned resource but the state volume is gone. */
  ghost predicate OthersGone(e: Engine, o: Owned)
    reads e
  {
    && (forall c :: c in o.containers ==> c !in e.containers)
    && (forall n :: n in o.networks ==> n !in e.networks)
    && (forall v :: v in o.volumes && v != o.state ==> v !in e.volumes)
  }

  /** The report, as a function of what happened. */
  function Summarize(
    preserve: bool, fence: Option<bool>, errors: seq<Problem>, stopped: bool, x: Evidence, rows: seq<LedgerRow>)
    : (r: Report)
    ensures r.cleanupComplete <==> errors == [] && AllAbsent(rows)
    ensures !r.finishOnlyRecovery <==> r.cleanupComplete && r.preservationComplete && x.errors == []
    ensures forall v :: v in r.quarantinedVolumes <==> LedgerRow(VOLUME, v, PRESENT) in rows
  {
    NamesOfEmpty(rows);
    assert forall v :: v in Quarantined(rows) <==> LedgerRow(VOLUME, v, PRESENT) in rows by {
      forall v ensures v in Quarantined(rows) <==> LedgerRow(VOLUME, v, PRESENT) in rows { QuarantinedAre(rows, v); }
    }
    var remaining, uncertain, quarantined := NamesOf(rows, PRESENT), NamesOf(rows, UNKNOWN), Quarantined(rows);
    var complete := errors == [] && remaining == [] && uncertain == [];
    var preservationComplete := if preserve then x.stateOk && x.outputOk && stopped else true;
    var finishOnly := quarantined != [] || errors != [] || x.errors != [] || remaining != [] || uncertain != []
                      || (preserve && !preservationComplete);
    Report(complete, preservationComplete, preserve && fence.Some?, if preserve then fence else None,
           quarantined, errors, x.errors, finishOnly, stopped, x.state, x.output, rows)
  }

  /** The cleanup. `fence` tells whether a fence was supplied and, if so, whether calling it
      succeeds. The caller's part is to list every container that writes to a volume. */
  method CleanupResources(e: Engine, o: Owned, preserve: bool, fence: Option<bool>)
    returns (r: Report, ghost tried: seq<string>)
    requires e.destroyed == map[] && forall c :: c in e.containers ==> c in o.containers
    modifies e
    // No last copy is lost on the failure path, whatever any command does.
    ensures preserve && o.state in old(e.volumes) ==> NotLost(e, o, o.state)
    ensures preserve && o.output in old(e.volumes) ==> NotLost(e, o, o.output)
    ensures preserve && !r.writersStopped ==> o.state !in e.destroyed && o.output !in e.destroyed
    // Complete preservation is what it says, for every evidence volume there was to preserve.
    ensures preserve && r.preservationComplete ==>
              && r.writersStopped
              && (o.state in o.volumes && o.state in old(e.volumes) ==> LastContentCopied(e, o, o.state))
              && (o.output in o.volumes && o.output in old(e.volumes) ==> LastContentCopied(e, o, o.output))
    // On the normal path the state volume goes last: only when everything else is gone, and never
    // after a recorded error, so that any error recorded is about removing the state volume itself.
    ensures !preserve && o.state in e.destroyed ==>
              r.writersStopped && OthersGone(e, o) && OnlyAbout(r.cleanupErrors, o.state)
    // What is reported as undone is all that can be left: a cleanup without errors whose evidence
    // was preserved leaves nothing behind.
    ensures r.cleanupErrors == [] && r.preservationComplete ==> AllGone(e, o)
    // The report is sound.
    ensures ListsAll(r.ledger, o)
    ensures r.cleanupComplete <==> r.cleanupErrors == [] && AllAbsent(r.ledger)
    ensures r.cleanupComplete ==> r.writersStopped && AllGone(e, o)
    ensures !r.finishOnlyRecovery <==> r.cleanupComplete && r.preservationComplete && r.preservationErrors == []
    ensures forall v :: v in r.quarantinedVolumes <==> LedgerRow(VOLUME, v, PRESENT) in r.ledger
    ensures preserve && !r.preservationComplete && r.writersStopped ==> r.preservationErrors != []
    ensures r.fenceAttempted == (preserve && fence.Some?)
    ensures r.fenceSucceeded == if r.fenceAttempted then fence else None
    // Whatever fails, a removal of every container and network is tried, and of the volumes that may go.
    ensures e.removals == old(e.removals) + AllTargets(o, tried)
    ensures Attempts(o, preserve, r.writersStopped, r.statePreservation, r.outputPreservation, r.cleanupErrors, tried)
    // With an engine that serves it, the cleanup succeeds: nothing is left, nothing is recorded. On the
    // failure path the volumes go, too, when the copies succeed.
    ensures old(e.Serving()) ==> r.cleanupErrors == [] && r.writersStopped
    ensures old(e.Serving()) && !preserve ==> AllGone(e, o) && r.cleanupComplete && !r.finishOnlyRecovery
    ensures old(e.Serving() && e.Copying()) && preserve ==>
              AllGone(e, o) && r.cleanupComplete && r.preservationComplete && !r.finishOnlyRecovery
  {
    hide Attempts, AllTargets, ListsAll, OnlyAbout, NamesOf, Quarantined;
    var errors, stopped, x, t := Dismantle(e, o, preserve);
    tried := t;
    var rows := FullLedger(e, o);
    r := Summarize(preserve, fence, errors, stopped, x, rows);
  }
}
