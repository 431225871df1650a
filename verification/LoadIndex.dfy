/** How many Workloads keep each coder busy, from one Workload list and one task list. */
module LoadIndex {
  import opened Outcomes
  import opened Workloads
  import opened Build

  /** A listed AgenticTask, or an entry that cannot be read as one. */
  datatype TaskItem = Malformed | TaskItem(owner: string, kind: Kind, phase: Phase)

  predicate Done(phase: Phase) {
    phase in {Succeeded, Failed, Cancelled, TimedOut, Completed}
  }

  predicate WellFormedItem(t: TaskItem) {
    t.TaskItem? && t.owner != ""
  }

  /** The task list answered and every entry names its Workload. */
  predicate Resolved(reply: Try<Option<seq<TaskItem>>>) {
    reply.Returned? && reply.value.Some? && AllWellFormed(reply.value.value)
  }

  /** The tasks of one Workload, in list order. */
  function TasksOwnedBy(items: seq<TaskItem>, owner: string): (tasks: seq<TaskItem>)
    ensures forall t :: t in tasks <==> t in items && t.TaskItem? && t.owner == owner
  {
    if items == [] then []
    else
      var n := |items| - 1;
      assert items == items[..n] + [items[n]];
      TasksOwnedBy(items[..n], owner) + (if items[n].TaskItem? && items[n].owner == owner then [items[n]] else [])
  }

  type Index = map<string, seq<TaskItem>>

  function Entry(index: Index, owner: string): seq<TaskItem> {
    if owner in index then index[owner] else []
  }

  function Add(index: Index, task: TaskItem): Index
    requires task.TaskItem?
  {
    index[task.owner := Entry(index, task.owner) + [task]]
  }

  /** The index holds every owner's tasks. */
  ghost predicate Groups(index: Index, items: seq<TaskItem>) {
    forall owner :: Entry(index, owner) == TasksOwnedBy(items, owner)
  }

  lemma AddExtends(index: Index, items: seq<TaskItem>, i: nat)
    requires i < |items| && items[i].TaskItem? && Groups(index, items[..i])
    ensures Groups(Add(index, items[i]), items[..i + 1])
  {
    assert items[..i + 1][..i] == items[..i];
    forall owner ensures Entry(Add(index, items[i]), owner) == TasksOwnedBy(items[..i + 1], owner) {
      assert Entry(index, owner) == TasksOwnedBy(items[..i], owner);
    }
  }

  predicate AllWellFormed(items: seq<TaskItem>) {
    forall t :: t in items ==> WellFormedItem(t)
  }

  lemma OneMoreWellFormed(items: seq<TaskItem>, i: nat)
    requires i < |items|
    ensures AllWellFormed(items[..i + 1]) <==> AllWellFormed(items[..i]) && WellFormedItem(items[i])
    ensures !WellFormedItem(items[i]) ==> !AllWellFormed(items)
  {
    assert items[..i + 1] == items[..i] + [items[i]];
    assert items[i] in items;
  }

  /** `_list_agentic_tasks_by_workload`: one pass over one list; None when anything about it is malformed. */
  method GroupTasks(reply: Try<Option<seq<TaskItem>>>) returns (grouped: Option<Index>)
    ensures grouped.Some? <==> Resolved(reply)
    ensures grouped.Some? <==>
      reply.Returned? && reply.value.Some? && forall t :: t in reply.value.value ==> t.TaskItem? && t.owner != ""
    ensures grouped.Some? ==> Groups(grouped.value, reply.value.value)
  {
    if reply.Raised? || reply.value.None? {
      return None;
    }
    var items := reply.value.value;
    var found: Index := map[];
    for i := 0 to |items|
      invariant AllWellFormed(items[..i]) && Groups(found, items[..i])
    {
      var task := items[i];
      OneMoreWellFormed(items, i);
      if task.Malformed? {
        return None;
      }
      if task.owner == "" {
        return None;
      }
      AddExtends(found, items, i);
      found := Add(found, task);
    }
    assert items[..|items|] == items;
    grouped := Some(found);
  }

  /** `_coder_still_busy`: no issue-fix task yet, or one that is not done. */
  predicate StillBusy(tasks: seq<TaskItem>) {
    (forall t :: t in tasks && t.TaskItem? ==> t.kind != IssueFix) ||
    (exists t :: t in tasks && t.TaskItem? && t.kind == IssueFix && !Done(t.phase))
  }

  /** The Workload holds one of its coder's slots. */
  predicate HoldsSlot(w: Workload, items: seq<TaskItem>) {
    StillBusy(TasksOwnedBy(items, w.name))
  }

  /** A task that has the coder at work on w, or had. */
  predicate CodesFor(t: TaskItem, w: Workload) {
    t.TaskItem? && t.owner == w.name && t.kind == IssueFix
  }

  /** The slot is given back exactly when the coder's task is listed and every one of them has ended. */
  lemma GivenBackExactly(w: Workload, items: seq<TaskItem>)
    ensures !HoldsSlot(w, items) <==>
      && (exists i :: 0 <= i < |items| && CodesFor(items[i], w))
      && forall i :: 0 <= i < |items| && CodesFor(items[i], w) ==> items[i].phase in {Succeeded, Failed, Cancelled, TimedOut, Completed}
  {
    var tasks := TasksOwnedBy(items, w.name);
    forall t: TaskItem | CodesFor(t, w) ensures t in tasks <==> exists i :: 0 <= i < |items| && items[i] == t {
    }
  }

  predicate RunsOn(w: Workload, coder: string) {
    CoderOf(w) == Some(coder)
  }

  /** How many of the Workloads run on coder. */
  function CountOn(workloads: seq<Workload>, coder: string): nat {
    if workloads == [] then 0
    else
      var n := |workloads| - 1;
      CountOn(workloads[..n], coder) + (if RunsOn(workloads[n], coder) then 1 else 0)
  }

  /** How many of the Workloads hold a slot of coder. */
  function CountBusy(workloads: seq<Workload>, items: seq<TaskItem>, coder: string): nat {
    if workloads == [] then 0
    else
      var n := |workloads| - 1;
      CountBusy(workloads[..n], items, coder) + (if RunsOn(workloads[n], coder) && HoldsSlot(workloads[n], items) then 1 else 0)
  }

  /** The slots held by coder as far as the task list tells; everything counts when it cannot be read. */
  function SlotsHeld(workloads: seq<Workload>, reply: Try<Option<seq<TaskItem>>>, coder: string): nat {
    if Resolved(reply) then CountBusy(workloads, reply.value.value, coder) else CountOn(workloads, coder)
  }

  method CountRefs(workloads: seq<Workload>) returns (load: Load)
    ensures forall coder :: Held(load, coder) == CountOn(workloads, coder)
  {
    load := map[];
    for i := 0 to |workloads|
      invariant forall coder :: Held(load, coder) == CountOn(workloads[..i], coder)
    {
      assert workloads[..i + 1][..i] == workloads[..i];
      var coder := CoderOf(workloads[i]);
      if coder.Some? {
        load := Charge(load, coder.value);
      }
    }
    assert workloads[..|workloads|] == workloads;
  }

  /** `_load_by_coder_agent`: the grouped count is the per-Workload definition. */
  method LoadByCoderAgent(workloads: seq<Workload>, reply: Try<Option<seq<TaskItem>>>) returns (load: Load)
    ensures forall coder :: Held(load, coder) == SlotsHeld(workloads, reply, coder)
    ensures reply.Returned? && reply.value.Some? && (forall t :: t in reply.value.value ==> t.TaskItem? && t.owner != "") ==>
      forall coder :: Held(load, coder) == CountBusy(workloads, reply.value.value, coder)
  {
    var grouped := GroupTasks(reply);
    if grouped.None? {
      load := CountRefs(workloads);
      return;
    }
    ghost var items := reply.value.value;
    load := map[];
    for i := 0 to |workloads|
      invariant forall coder :: Held(load, coder) == CountBusy(workloads[..i], items, coder)
    {
      var w := workloads[i];
      assert workloads[..i + 1][..i] == workloads[..i];
      var coder := CoderOf(w);
      if coder.Some? {
        var tasks := Entry(grouped.value, w.name);
        if StillBusy(tasks) {
          load := Charge(load, coder.value);
        }
      }
    }
    assert workloads[..|workloads|] == workloads;
  }

  /** An unreadable task list never makes a coder look idler than it is. */
  lemma {:induction false} NeverUnderCounts(workloads: seq<Workload>, items: seq<TaskItem>, coder: string)
    ensures CountBusy(workloads, items, coder) <= CountOn(workloads, coder)
  {
    if workloads != [] {
      NeverUnderCounts(workloads[..|workloads| - 1], items, coder);
    }
  }

  /** A Workload the bridge has just rendered holds a slot of the coder it was rendered for, until a task says otherwise. */
  lemma FreshWorkloadHoldsSlot(
    item: ClaimedItem, attempt: int, infraAttempt: int, coder: string, feedback: string, revisionCoder: string,
    reviseFrom: string, render: Render, items: seq<TaskItem>)
    requires coder != ""
    ensures var w := BuildWorkload(item, attempt, infraAttempt, coder, feedback, revisionCoder, reviseFrom, render);
      TasksOwnedBy(items, w.name) == [] ==> CountBusy([w], items, coder) == 1
  {
    var w := BuildWorkload(item, attempt, infraAttempt, coder, feedback, revisionCoder, reviseFrom, render);
    BuiltWorkloadNamesCoder(item, attempt, infraAttempt, coder, feedback, revisionCoder, reviseFrom, render);
    assert [w][..0] == [];
  }
}
