/** The container engine that the failure cleanup drives. Every command may fail, may act and
    still report failure, and may leave its outcome unreadable: which of these happens at each
    command is an arbitrary script, so a proof about a cleanup holds for every such history. */
module CleanupWorld {
  import opened Options

  datatype Kind = CONTAINER | NETWORK | VOLUME

  datatype Presence = PRESENT | ABSENT | UNKNOWN

  type Contents = string

  /** What a copy out of a volume left behind, in the order the caller checks it. */
  datatype CopyOutcome = CommandFailed | FilesMissing | NotConfirmed | Confirmed

  /** What the environment does at one command: containers that vanish and volumes that running
      containers write beforehand, whether the command acts, what it reports and prints, and what a
      copy produces. */
  datatype Turn = Turn(
    vanishing: set<string>, writes: map<string, Contents>,
    acts: bool, succeeds: bool, saysNoSuch: bool, detail: string,
    copy: CopyOutcome, fragment: Option<Contents>)

  /** The outcome of `docker inspect`: whether it returned zero, and its output in lower case. */
  datatype Inspection = Inspection(ok: bool, detail: string)

  datatype Removal = Removal(ok: bool, saysNoSuch: bool)

  // ---------------------------------------------------------------- reading an inspection

  predicate OccursAt(text: string, phrase: string, i: nat) {
    i + |phrase| <= |text| && text[i..i + |phrase|] == phrase
  }

  predicate Contains(text: string, phrase: string) { exists i :: 0 <= i <= |text| && OccursAt(text, phrase, i) }

  predicate SaysNotFound(detail: string) { Contains(detail, "network ") && Contains(detail, " not found") }

  /** The output of a failed inspection says that there is no such resource. */
  predicate NamesAbsence(kind: Kind, detail: string) {
    match kind
    case CONTAINER => Contains(detail, "no such container") || Contains(detail, "no such object")
    case NETWORK => Contains(detail, "no such network") || SaysNotFound(detail)
    case VOLUME => Contains(detail, "no such volume") || Contains(detail, "no such object")
  }

  /** `_presence`: failure is absence only when the output says so. */
  function Classify(kind: Kind, i: Inspection): Presence {
    if i.ok then PRESENT else if NamesAbsence(kind, i.detail) then ABSENT else UNKNOWN
  }

  lemma ContainsWithin(before: string, text: string, after: string, phrase: string)
    requires Contains(text, phrase)
    ensures Contains(before + text + after, phrase)
  {
    var i :| 0 <= i <= |text| && OccursAt(text, phrase, i);
    assert OccursAt(before + text + after, phrase, |before| + i);
  }

  lemma ContainsBeginning(text: string, phrase: string, n: nat)
    requires Contains(text, phrase) && n <= |phrase|
    ensures Contains(text, phrase[..n])
  {
    var i :| 0 <= i <= |text| && OccursAt(text, phrase, i);
    assert text[i..i + |phrase|][..n] == text[i..i + n];
    assert OccursAt(text, phrase[..n], i);
  }

  /** Further output around a message of absence does not hide it. */
  lemma AbsenceSurvivesContext(kind: Kind, before: string, text: string, after: string)
    requires Classify(kind, Inspection(false, text)) == ABSENT
    ensures Classify(kind, Inspection(false, before + text + after)) == ABSENT
  {
    hide Contains;
    forall phrase | Contains(text, phrase) ensures Contains(before + text + after, phrase) {
      ContainsWithin(before, text, after, phrase);
    }
  }

  lemma NoSuchComesFirst(detail: string, resource: string)
    requires Contains(detail, "no such " + resource)
    ensures Contains(detail, "no such ")
  {
    ContainsBeginning(detail, "no such " + resource, 8);
    assert ("no such " + resource)[..8] == "no such ";
  }

  /** Output that does not say "no such ", none at all in particular, is never taken for the absence
      of a container or a volume; nor for that of a network, unless the two words "network " and
      " not found" both occur in it. */
  lemma TransportFailureIsUnknown(kind: Kind, detail: string)
    ensures !Contains(detail, "no such ") && !(kind == NETWORK && SaysNotFound(detail)) ==>
              Classify(kind, Inspection(false, detail)) == UNKNOWN
  {
    hide Contains;
    assert "no such container" == "no such " + "container" && "no such object" == "no such " + "object";
    assert "no such network" == "no such " + "network" && "no such volume" == "no such " + "volume";
    if Classify(kind, Inspection(false, detail)) != UNKNOWN && !(kind == NETWORK && SaysNotFound(detail)) {
      var resource :|
        resource in {"container", "object", "network", "volume"} && Contains(detail, "no such " + resource);
      NoSuchComesFirst(detail, resource);
    }
  }

  /** The words need not belong together: any failure whose output holds both, in either order and
      with anything in between, is taken for the absence of the network. */
  lemma ScatteredWordsAreAbsence(first: string, between: string, last: string)
    ensures Classify(NETWORK, Inspection(false, first + "network " + between + " not found" + last)) == ABSENT
    ensures Classify(NETWORK, Inspection(false, first + " not found" + between + "network " + last)) == ABSENT
  {
    var one := first + "network " + between + " not found" + last;
    var two := first + " not found" + between + "network " + last;
    assert OccursAt(one, "network ", |first|);
    assert OccursAt(one, " not found", |first| + 8 + |between|);
    assert OccursAt(two, " not found", |first|);
    assert OccursAt(two, "network ", |first| + 10 + |between|);
  }

  /** So a failure to reach the engine can be taken for absence. */
  lemma LookupFailureIsAbsence()
    ensures Classify(NETWORK, Inspection(false, "lookup engine: " + "network " + "down, host" + " not found")) == ABSENT
  {
    hide Classify;
    var text := "lookup engine: " + "network " + "down, host" + " not found";
    ScatteredWordsAreAbsence("lookup engine: ", "down, host", "");
    assert text + "" == text;
  }

  // ---------------------------------------------------------------- the engine

  /** Volumes only change while some container is left to write them. */
  function Written(volumes: map<string, Contents>, writes: map<string, Contents>, writers: set<string>)
    : map<string, Contents>
  {
    if writers == {} then volumes
    else map v | v in volumes :: if v in writes then writes[v] else volumes[v]
  }

  /** At this command the engine serves the cleanup: the command succeeds, or acts and finds that there
      was nothing to do, and a failed inspection says that the resource is absent. */
  ghost predicate Serves(t: Turn) {
    (t.succeeds || (t.acts && t.saysNoSuch)) && forall k: Kind :: NamesAbsence(k, t.detail)
  }

  /** And a copy made at this command is complete. */
  ghost predicate Copies(t: Turn) { t.succeeds && t.copy == Confirmed }

  datatype Target = Target(kind: Kind, name: string)

  function Targets(kind: Kind, names: seq<string>): seq<Target> {
    seq(|names|, i requires 0 <= i < |names| => Target(kind, names[i]))
  }

  function Reversed<T>(s: seq<T>): seq<T> {
    seq(|s|, i requires 0 <= i < |s| => s[|s| - 1 - i])
  }

  class Engine {
    const script: nat -> Turn
    var turn: nat
    var containers: set<string>
    var networks: set<string>
    var volumes: map<string, Contents>
    var stateCopy: Option<Contents>
    var outputCopy: Option<Contents>
    /** What each volume held at the moment a command destroyed it. */
    ghost var destroyed: map<string, Contents>
    /** What the removal commands issued so far were about, in order. */
    ghost var removals: seq<Target>

    ghost predicate Has(kind: Kind, name: string)
      reads this
    {
      match kind
      case CONTAINER => name in containers
      case NETWORK => name in networks
      case VOLUME => name in volumes
    }

    /** From here on the engine serves the cleanup. */
    ghost predicate Serving()
      reads this`turn
    {
      forall n: nat :: turn <= n ==> Serves(script(n))
    }

    ghost predicate Copying()
      reads this`turn
    {
      forall n: nat :: turn <= n ==> Copies(script(n))
    }

    /** What no command ever does: bring a resource back, or change a volume nobody writes. */
    twostate predicate OnlyShrinks()
      reads this
    {
      && old(turn) <= turn
      && containers <= old(containers) && networks <= old(networks) && volumes.Keys <= old(volumes.Keys)
      && (old(containers) == {} ==> forall v :: v in volumes ==> volumes[v] == old(volumes)[v])
    }

    method Elapse() returns (t: Turn)
      modifies this`turn, this`containers, this`volumes
      ensures OnlyShrinks() && volumes.Keys == old(volumes.Keys) && t == script(old(turn))
    {
      t := script(turn);
      turn := turn + 1;
      volumes := Written(volumes, t.writes, containers);
      containers := containers - t.vanishing;
    }

    /** A removal that reports success has removed; one that reports failure may have. */
    method RemoveContainer(name: string) returns (r: Removal)
      modifies this`turn, this`containers, this`volumes, this`removals
      ensures OnlyShrinks() && volumes.Keys == old(volumes.Keys)
      ensures r.ok ==> name !in containers
      ensures removals == old(removals) + [Target(CONTAINER, name)]
      ensures old(Serving()) ==> name !in containers && (r.ok || r.saysNoSuch)
    {
      removals := removals + [Target(CONTAINER, name)];
      var t := Elapse();
      if t.acts || t.succeeds {
        containers := containers - {name};
      }
      return Removal(t.succeeds, t.saysNoSuch);
    }

    method RemoveNetwork(name: string) returns (ok: bool)
      modifies this`turn, this`containers, this`volumes, this`networks, this`removals
      ensures OnlyShrinks() && volumes.Keys == old(volumes.Keys)
      ensures ok ==> name !in networks
      ensures removals == old(removals) + [Target(NETWORK, name)]
      ensures old(Serving()) ==> name !in networks
    {
      removals := removals + [Target(NETWORK, name)];
      var t := Elapse();
      if t.acts || t.succeeds {
        networks := networks - {name};
      }
      return t.succeeds;
    }

    method RemoveVolume(name: string) returns (ok: bool)
      modifies this`turn, this`containers, this`volumes, this`destroyed, this`removals
      ensures OnlyShrinks() && volumes.Keys >= old(volumes.Keys) - {name}
      ensures ok ==> name !in volumes
      ensures removals == old(removals) + [Target(VOLUME, name)]
      ensures old(Serving()) ==> name !in volumes
      ensures name in volumes || name !in old(volumes) ==> destroyed == old(destroyed)
      ensures destroyed.Keys <= old(destroyed.Keys) + {name}
      ensures volumes.Keys + destroyed.Keys >= old(volumes.Keys + destroyed.Keys)
      ensures forall v :: v != name && v in destroyed ==> destroyed[v] == old(destroyed)[v]
      ensures old(containers) == {} && name in old(volumes) && name !in volumes ==>
                destroyed == old(destroyed)[name := old(volumes)[name]]
    {
      removals := removals + [Target(VOLUME, name)];
      var t := Elapse();
      if t.acts || t.succeeds {
        if name in volumes {
          destroyed := destroyed[name := volumes[name]];
        }
        volumes := volumes - {name};
      }
      return t.succeeds;
    }

    /** The engine does not lie: an inspection succeeds only on a resource that is there, and its
        output names the resource as absent only when it is. It may fail on either. */
    method RunInspect(kind: Kind, name: string) returns (i: Inspection)
      modifies this`turn, this`containers, this`volumes
      ensures OnlyShrinks() && volumes.Keys == old(volumes.Keys)
      ensures i.ok ==> Has(kind, name)
      ensures NamesAbsence(kind, i.detail) ==> !Has(kind, name)
      ensures old(Serving()) ==> i.ok || NamesAbsence(kind, i.detail)
    {
      var t := Elapse();
      var here := match kind
        case CONTAINER => name in containers
        case NETWORK => name in networks
        case VOLUME => name in volumes;
      if here && (t.succeeds || NamesAbsence(kind, t.detail)) {
        return Inspection(true, "");
      }
      return Inspection(false, t.detail);
    }

    /** `_presence`: an answer other than unknown is true, and the answer is what the return code
        and the output say. */
    method Inspect(kind: Kind, name: string) returns (p: Presence, ghost read: Inspection)
      modifies this`turn, this`containers, this`volumes
      ensures OnlyShrinks() && volumes.Keys == old(volumes.Keys)
      ensures p == PRESENT ==> Has(kind, name)
      ensures p == ABSENT ==> !Has(kind, name)
      ensures p == PRESENT <==> read.ok
      ensures p == ABSENT <==> !read.ok && NamesAbsence(kind, read.detail)
      ensures old(Serving()) ==> p != UNKNOWN
    {
      var i := RunInspect(kind, name);
      read := i;
      return Classify(kind, i), i;
    }

    /** The backup of the state volume. A confirmed backup is complete; any other outcome may
        leave a fragment, or nothing, in the preserved directory. */
    method CopyState(volume: string) returns (outcome: CopyOutcome)
      modifies this`turn, this`containers, this`volumes, this`stateCopy
      ensures OnlyShrinks() && volumes.Keys == old(volumes.Keys)
      ensures outcome == Confirmed && old(containers) == {} ==> volume in volumes && stateCopy == Some(volumes[volume])
      ensures old(Copying()) && volume in old(volumes) ==> outcome == Confirmed
    {
      var t := Elapse();
      if t.copy == Confirmed && volume in volumes {
        stateCopy := Some(volumes[volume]);
        return Confirmed;
      }
      stateCopy := t.fragment;
      return if t.copy == Confirmed then CommandFailed else t.copy;
    }

    /** The copy of the output volume: complete exactly when the copying command succeeds. */
    method CopyOutput(volume: string) returns (ok: bool)
      modifies this`turn, this`containers, this`volumes, this`outputCopy
      ensures OnlyShrinks() && volumes.Keys == old(volumes.Keys)
      ensures ok && old(containers) == {} ==> volume in volumes && outputCopy == Some(volumes[volume])
      ensures old(Copying()) && volume in old(volumes) ==> ok
    {
      var t := Elapse();
      if t.succeeds && volume in volumes {
        outputCopy := Some(volumes[volume]);
        return true;
      }
      outputCopy := t.fragment;
      return false;
    }
  }
}
