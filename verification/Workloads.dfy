/** The Workload objects the bridge keeps its whole state in, and the cluster that stores them. */
module Workloads {
  import opened Outcomes

  datatype Phase = NoPhase | Pending | Running | Succeeded | Completed | Failed | Cancelled | TimedOut | OtherPhase

  datatype Creator = IssueBridge | PrFixBridge | Foreign

  datatype Kind = IssueFix | Code | Verify | Review | OtherKind

  /** An issue by identity. */
  datatype Ref = Ref(repo: string, number: int)

  /** The annotation keys the bridge writes. */
  datatype Note = Attempt | InfraAttempt | Signature | Progress | IssueId | PrFixRepo | PrFixNumber

  datatype GateProfile = GateProfile(language: Option<string>, commands: map<string, string>)

  datatype Payload = Payload(
    repo: string,
    issue: Option<int>,
    branch: Option<string>,
    prompt: Option<string>,
    reviseFromBranch: Option<string>,
    branchStrategy: Option<string>,
    allowOverwrite: bool,
    openPullRequest: bool)

  datatype Step = Step(name: string, kind: Kind, agent: Option<string>, dependsOn: seq<string>, payload: Payload)

  datatype Spec = Spec(
    intent: string,
    repo: string,
    issues: seq<int>,
    pipeline: seq<Step>,
    coder: Option<string>,
    reviewers: seq<string>,
    verifier: Option<string>,
    revisionCoder: Option<string>,
    reviseFromBranch: Option<string>,
    allowOverwrite: bool,
    selfGo: seq<string>,
    gateProfile: Option<GateProfile>)

  datatype Workload = Workload(
    name: string,
    createdBy: Creator,
    lane: string,
    notes: map<Note, string>,
    spec: Spec,
    phase: Phase,
    executorError: bool,
    allResolved: bool)

  type Objects = map<string, Workload>

  /** The cluster stores every Workload under its own name. */
  predicate WellNamed(objects: Objects) {
    forall n :: n in objects ==> objects[n].name == n
  }

  function NoteOr(w: Workload, key: Note, default: string): string {
    if key in w.notes then w.notes[key] else default
  }

  function AfterDelete(objects: Objects, name: string, reply: DeleteReply): Objects {
    if reply == RaisedKept then objects else objects - {name}
  }

  /** A create on a taken name answers 409, which the bridge treats as done. */
  function AfterCreate(objects: Objects, w: Workload, reply: CreateReply): Objects {
    if reply == RaisedAbsent || w.name in objects then objects else objects[w.name := w]
  }

  /** A Workload deleted, and recreated under its name once the delete worked. */
  function AfterRemake(objects: Objects, next: Workload, delete: DeleteReply, create: CreateReply): Objects {
    var deleted := AfterDelete(objects, next.name, delete);
    if delete == Gone then AfterCreate(deleted, next, create) else deleted
  }

  lemma RemadeEntry(objects: Objects, w: Workload, next: Workload, delete: DeleteReply, create: CreateReply)
    requires w.name in objects && objects[w.name] == w && next.name == w.name
    ensures var after := AfterRemake(objects, next, delete, create);
      && (w.name in after <==> delete == RaisedKept || (delete == Gone && create != RaisedAbsent))
      && (w.name in after ==> after[w.name] == if delete == RaisedKept then w else next)
  {
  }

  class Cluster {
    var objects: Objects

    constructor (initial: Objects)
      ensures objects == initial
    {
      objects := initial;
    }

    method Delete(name: string, reply: DeleteReply) returns (raised: bool)
      modifies this
      ensures objects == AfterDelete(old(objects), name, reply)
      ensures raised <==> reply != Gone
    {
      if reply != RaisedKept {
        objects := objects - {name};
      }
      raised := reply != Gone;
    }

    method Create(w: Workload, reply: CreateReply) returns (raised: bool)
      modifies this
      ensures objects == AfterCreate(old(objects), w, reply)
      ensures raised <==> reply != Stored
    {
      if reply != RaisedAbsent && w.name !in objects {
        objects := objects[w.name := w];
      }
      raised := reply != Stored;
    }
  }

  /** How many Workloads each coder Agent holds; one object is shared by the passes of a tick. */
  type Load = map<string, nat>

  function Held(load: Load, coder: string): nat {
    if coder in load then load[coder] else 0
  }

  function Charge(load: Load, coder: string): (r: Load)
    ensures forall a :: Held(r, a) == Held(load, a) + (if a == coder then 1 else 0)
  {
    load[coder := Held(load, coder) + 1]
  }

  class CoderLoad {
    var load: Load

    constructor (initial: Load)
      ensures load == initial
    {
      load := initial;
    }

    method Draw(coder: string)
      modifies this
      ensures load == Charge(old(load), coder)
    {
      load := load[coder := (if coder in load then load[coder] else 0) + 1];
    }
  }
}
