/** Restart reconciliation: a boot marks interrupted threads and relays and repairs what they left
    behind. The boot can itself be cut off between any two of its writes and be started again. */
module Reconcile {
  import opened TaskTypes
  import opened EventStore

  datatype Binding = Binding(peer: string, destinationNode: string, destinationTask: string, status: RelayStatus)

  datatype ThreadRow = ThreadRow(status: ThreadStatus, lastTask: Option<string>)

  /** The durable state of a node. `turns` holds the status of the thread turn of a task. */
  datatype Node = Node(
    db: Db,
    bindings: map<string, Binding>,
    threads: map<string, ThreadRow>,
    turns: map<string, TaskStatus>)

  // ---- The writes of a boot, one at a time ----

  /** The last task of an active thread exists and is not terminal. */
  predicate LeftOpen(tasks: map<string, TaskRow>, row: ThreadRow) {
    && row.status == Active && row.lastTask.Some?
    && row.lastTask.value in tasks && !tasks[row.lastTask.value].status.IsTerminal()
  }

  function MarkThreads(d: Node): Node {
    d.(threads := map id | id in d.threads ::
         if LeftOpen(d.db.tasks, d.threads[id]) then d.threads[id].(status := ThreadInterrupted) else d.threads[id])
  }

  /** The statement on threads, row by row: an active thread whose last task has a row that is not completed,
      failed or cancelled becomes interrupted, every other thread is as it was, and none comes or goes. */
  ghost predicate ThreadsMarked(tasks: map<string, TaskRow>, before: map<string, ThreadRow>, after: map<string, ThreadRow>) {
    && after.Keys == before.Keys
    && forall id :: id in before ==>
         var t := before[id].lastTask;
         var broken := before[id].status == Active && t.Some? && t.value in tasks
                       && tasks[t.value].status !in {Completed, Failed, Cancelled};
         after[id] == if broken then ThreadRow(ThreadInterrupted, t) else before[id]
  }

  lemma MarkThreadsMeans(d: Node)
    ensures ThreadsMarked(d.db.tasks, d.threads, MarkThreads(d).threads)
    ensures MarkThreads(d) == d.(threads := MarkThreads(d).threads)
  {
  }

  predicate Open(d: Node, id: string) {
    id in d.bindings && !d.bindings[id].status.IsTerminal()
  }

  function MarkBinding(b: Binding): Binding {
    if b.status.IsTerminal() then b else b.(status := Interrupted)
  }

  function MarkBindings(d: Node): Node {
    d.(bindings := map id | id in d.bindings :: MarkBinding(d.bindings[id]))
  }

  /** The statement on bindings, row by row: a binding that is pending or streaming or already interrupted
      reads interrupted, one with an outcome keeps it, and nothing else of a binding changes. */
  ghost predicate BindingsMarked(before: map<string, Binding>, after: map<string, Binding>) {
    && after.Keys == before.Keys
    && forall id :: id in before ==>
         var b := before[id];
         var ended := b.status in {Reached(Completed), Reached(Failed), Reached(Cancelled)};
         after[id] == Binding(b.peer, b.destinationNode, b.destinationTask, if ended then b.status else Interrupted)
  }

  lemma MarkBindingsMeans(d: Node)
    ensures BindingsMarked(d.bindings, MarkBindings(d).bindings)
    ensures MarkBindings(d) == d.(bindings := MarkBindings(d).bindings)
  {
  }

  function InterruptionDraft(id: string, b: Binding): Mutation {
    Mutation(
      TaskEvent(id, 0, TaskFailed, Failed, FromTransport, "Remote relay interrupted by origin restart",
                map["remote_peer_id" := JStr(b.peer), "destination_node_id" := JStr(b.destinationNode),
                    "destination_task_id" := JStr(b.destinationTask), "relay_status" := JStr("relay_interrupted")]),
      Some(Handle(b.destinationTask, "", "")),
      Some(TaskError("remote relay interrupted", "origin node restarted before observing destination terminal state")),
      "")
  }

  /** The proxy task and its event, in one transaction. */
  function FailTask(d: Node, id: string): Node
    requires id in d.bindings
  {
    d.(db := Committed(d.db, Numbered(d.db, InterruptionDraft(id, d.bindings[id]))))
  }

  function FailTurn(d: Node, id: string): Node {
    if id in d.turns then d.(turns := d.turns[id := Failed]) else d
  }

  /** The proxy task already has its outcome: only the binding is repaired. */
  function Repair(d: Node, id: string): Node
    requires id in d.bindings && id in d.db.tasks
  {
    d.(bindings := d.bindings[id := d.bindings[id].(status := Reached(d.db.tasks[id].status))])
  }

  /** One whole turn of the loop. */
  function Visit(d: Node, id: string): (r: Node)
    requires id in d.bindings && id in d.db.tasks
    ensures r.bindings.Keys == d.bindings.Keys && r.db.tasks.Keys == d.db.tasks.Keys && r.threads == d.threads
  {
    if d.db.tasks[id].status.IsTerminal() then Repair(d, id) else FailTurn(FailTask(d, id), id)
  }

  /** The writes that one turn of the loop makes. */
  function Cost(d: Node, id: string): nat
    requires id in d.db.tasks
  {
    if d.db.tasks[id].status.IsTerminal() then 1 else 2
  }

  // ---- A boot that is cut off after `k` writes ----

  /** The loop over the bindings that were selected, in the order the database listed them. A missing
      proxy task ends the boot with an error. */
  function RunLoop(d: Node, order: seq<string>, k: nat): Node
    requires forall id :: id in order ==> id in d.bindings
    decreases order
  {
    if order == [] || k == 0 || order[0] !in d.db.tasks then d
    else if k < Cost(d, order[0]) then FailTask(d, order[0])
    else RunLoop(Visit(d, order[0]), order[1..], k - Cost(d, order[0]))
  }

  predicate Distinct(order: seq<string>) {
    forall i, j :: 0 <= i < j < |order| ==> order[i] != order[j]
  }

  /** `order` lists the open bindings, each once, in any order. */
  ghost predicate Lists(d: Node, order: seq<string>) {
    && (forall id :: id in order <==> Open(d, id))
    && Distinct(order)
  }

  function Boot(d: Node, order: seq<string>, k: nat): Node
    requires forall id :: id in order ==> id in d.bindings
  {
    if k == 0 then d
    else if k == 1 then MarkThreads(d)
    else RunLoop(MarkBindings(MarkThreads(d)), order, k - 2)
  }

  // ---- One task at a time ----

  /** Everything the reconciliation says about one task. */
  datatype View = View(row: Option<TaskRow>, log: seq<TaskEvent>, binding: Option<Binding>)
  {
    predicate Open() {
      binding.Some? && !binding.value.status.IsTerminal()
    }

    predicate Ended() {
      row.Some? && row.value.status.IsTerminal()
    }

    function Marked(): View {
      if binding.Some? then this.(binding := Some(MarkBinding(binding.value))) else this
    }

    /** The binding takes over the outcome of the task. */
    function Repaired(): View
      requires row.Some? && binding.Some?
    {
      this.(binding := Some(binding.value.(status := Reached(row.value.status))))
    }

    /** The interruption event at the end of the log, and the row that follows from it. */
    function Interrupted(id: string): View
      requires row.Some? && binding.Some?
    {
      var draft := InterruptionDraft(id, binding.value);
      var m := draft.(event := draft.event.(seqNo := |log| + 1));
      View(Some(Updated(row.value, m)), log + [m.event], binding)
    }

    /** What one turn of the loop does to this task. */
    function Visited(id: string): View {
      if row == None || binding == None then this
      else if Ended() then Repaired()
      else Interrupted(id)
    }

    /** What a whole boot does to this task. */
    function Booted(id: string): View {
      if Open() then Marked().Visited(id) else this
    }
  }

  function ViewOf(d: Node, id: string): View {
    View(if id in d.db.tasks then Some(d.db.tasks[id]) else None,
         EventsOf(d.db.events, id),
         if id in d.bindings then Some(d.bindings[id]) else None)
  }

  lemma FailTaskView(d: Node, id: string, t: string)
    requires Contiguous(d.db.events) && id in d.bindings && id in d.db.tasks
    ensures Contiguous(FailTask(d, id).db.events)
    ensures ViewOf(FailTask(d, id), t) == if t == id then ViewOf(d, id).Interrupted(id) else ViewOf(d, t)
  {
    var m := Numbered(d.db, InterruptionDraft(id, d.bindings[id]));
    ContiguousSeqs(d.db.events, id);
    AppendKeepsContiguous(d.db.events, m.event);
    EventsOfAppend(d.db.events, m.event, t);
  }

  lemma RepairView(d: Node, id: string, t: string)
    requires id in d.bindings && id in d.db.tasks
    ensures ViewOf(Repair(d, id), t) == if t == id then ViewOf(d, id).Repaired() else ViewOf(d, t)
  {
  }

  lemma VisitView(d: Node, id: string, t: string)
    requires Contiguous(d.db.events) && id in d.bindings && id in d.db.tasks
    ensures Contiguous(Visit(d, id).db.events)
    ensures ViewOf(Visit(d, id), t) == if t == id then ViewOf(d, id).Visited(id) else ViewOf(d, t)
  {
    if d.db.tasks[id].status.IsTerminal() {
      RepairView(d, id, t);
    } else {
      FailTaskView(d, id, t);
      FailTurnView(FailTask(d, id), id, t);
    }
  }

  lemma FailTurnView(d: Node, id: string, t: string)
    ensures ViewOf(FailTurn(d, id), t) == ViewOf(d, t)
  {
  }

  /** What a cut-off loop makes of one task: nothing, or one visit; and the visit when it was listed and
      the loop ran to its end. */
  predicate LoopOutcome(v: View, v': View, t: string, listed: bool, complete: bool) {
    && (v' == v || (listed && v' == v.Visited(t)))
    && (listed && complete ==> v' == v.Visited(t))
  }

  lemma ComposeOutcomes(v: View, v1: View, v': View, t: string, head: bool, later: bool, complete: bool, completeLater: bool)
    requires v1 == if head then v.Visited(t) else v
    requires LoopOutcome(v1, v', t, later, completeLater) && !(head && later) && (complete ==> completeLater)
    ensures LoopOutcome(v, v', t, head || later, complete)
  {
  }

  lemma FirstOfDistinct(order: seq<string>, t: string)
    requires order != [] && Distinct(order)
    ensures t in order <==> t == order[0] || t in order[1..]
    ensures order[0] !in order[1..]
    ensures Distinct(order[1..])
  {
  }

  lemma {:induction false} LoopView(d: Node, order: seq<string>, k: nat, t: string)
    requires Contiguous(d.db.events) && forall id :: id in order ==> id in d.bindings
    requires Distinct(order)
    ensures Contiguous(RunLoop(d, order, k).db.events) && RunLoop(d, order, k).threads == d.threads
    ensures LoopOutcome(ViewOf(d, t), ViewOf(RunLoop(d, order, k), t), t, t in order, Complete(d, order, k))
    decreases order
  {
    hide Updated, InterruptionDraft, Distinct;
    if order == [] {
    } else if k == 0 || order[0] !in d.db.tasks {
      assert order[0] in order;
    } else {
      var id, rest := order[0], order[1..];
      FirstOfDistinct(order, t);
      if k >= Cost(d, id) {
        VisitView(d, id, t);
        CompleteRest(d, order, k);
        LoopView(Visit(d, id), rest, k - Cost(d, id), t);
        ComposeOutcomes(ViewOf(d, t), ViewOf(Visit(d, id), t), ViewOf(RunLoop(d, order, k), t), t, t == id, t in rest,
                        Complete(d, order, k), Complete(Visit(d, id), rest, k - Cost(d, id)));
      } else {
        FailTaskView(d, id, t);
      }
    }
  }

  /** The loop is neither cut off nor ended by a missing proxy task. */
  predicate Complete(d: Node, order: seq<string>, k: nat) {
    k >= 2 * |order| && forall id :: id in order ==> id in d.db.tasks
  }

  lemma CompleteRest(d: Node, order: seq<string>, k: nat)
    requires order != [] && order[0] in d.bindings && order[0] in d.db.tasks && k >= Cost(d, order[0])
    ensures Complete(d, order, k) ==> Complete(Visit(d, order[0]), order[1..], k - Cost(d, order[0]))
  {
  }

  // ---- One boot ----

  predicate CompleteBoot(d: Node, order: seq<string>, k: nat) {
    k >= 2 + 2 * |order| && forall id :: id in order ==> id in d.db.tasks
  }

  lemma MarkedView(d: Node, t: string)
    ensures ViewOf(MarkThreads(d), t) == ViewOf(d, t)
    ensures ViewOf(MarkBindings(d), t) == ViewOf(d, t).Marked()
  {
  }

  lemma ListsMarked(d: Node, order: seq<string>, t: string)
    requires Lists(d, order)
    ensures forall id :: id in order ==> id in MarkBindings(MarkThreads(d)).bindings
    ensures t in order <==> ViewOf(d, t).Open()
  {
  }

  /** This task is as it was, marked, or booted; and booted when the boot ran to its end. */
  predicate BootOutcome(v: View, v': View, t: string, complete: bool) {
    && (v' == v || v' == v.Marked() || v' == v.Booted(t))
    && (complete ==> v' == v.Booted(t))
  }

  lemma LoopThenBoot(v: View, v': View, t: string, complete: bool)
    requires LoopOutcome(v.Marked(), v', t, v.Open(), complete)
    ensures BootOutcome(v, v', t, complete)
  {
  }

  /** A boot, cut off anywhere. */
  lemma BootView(d: Node, order: seq<string>, k: nat, t: string)
    requires Contiguous(d.db.events) && Lists(d, order)
    ensures Contiguous(Boot(d, order, k).db.events)
    ensures Boot(d, order, k).threads == (if k == 0 then d else MarkThreads(d)).threads
    ensures k == 0 ==> ViewOf(Boot(d, order, k), t) == ViewOf(d, t)
    ensures BootOutcome(ViewOf(d, t), ViewOf(Boot(d, order, k), t), t, CompleteBoot(d, order, k))
  {
    var d1 := MarkThreads(d);
    MarkedView(d, t);
    if k > 1 {
      ListsMarked(d, order, t);
      MarkedView(d1, t);
      LoopView(MarkBindings(d1), order, k - 2, t);
      LoopThenBoot(ViewOf(d, t), ViewOf(Boot(d, order, k), t), t, CompleteBoot(d, order, k));
    }
  }

  // ---- Any number of boots ----

  /** Where all boots lead. */
  function Settled(v: View, t: string): View {
    v.Booted(t).Booted(t)
  }

  predicate Between(v0: View, v: View, t: string) {
    v == v0 || v == v0.Marked() || v == v0.Booted(t) || v == Settled(v0, t)
  }

  lemma MarkedThenBooted(v: View, t: string)
    ensures v.Marked().Marked() == v.Marked() && v.Marked().Booted(t) == v.Booted(t)
    ensures v.Booted(t).Marked() == v.Booted(t)
  {
  }

  lemma SettledStays(v: View, t: string)
    ensures Settled(v, t).Booted(t) == Settled(v, t) && Settled(v, t).Marked() == Settled(v, t)
    ensures Settled(v, t).Open() <==> v.Open() && v.row == None
  {
  }

  /** One more boot, cut off or not, stays between; two whole boots always settle. */
  lemma BetweenKept(v0: View, v: View, t: string)
    requires Between(v0, v, t)
    ensures Between(v0, v.Marked(), t) && Between(v0, v.Booted(t), t)
    ensures v.Booted(t).Booted(t) == Settled(v0, t)
  {
    MarkedThenBooted(v0, t);
    MarkedThenBooted(v0.Booted(t), t);
    SettledStays(v0, t);
  }

  /** What can be said of a task between its first boot and its last. */
  lemma BetweenMeans(v0: View, v: View, t: string)
    requires Between(v0, v, t)
    ensures v.row.Some? <==> v0.row.Some?
    ensures v.Open() ==> v0.Open()
    ensures v0.Open() && v0.row == None ==> v.Open()
    ensures v0.Ended() || !v0.Open() ==> v.row == v0.row && v.log == v0.log
    ensures v.row != v0.row ==> v.Ended()
    ensures v.log != v0.log ==> v.Ended()
    ensures v.log == v0.log || (v0.Open() && v0.row.Some? && !v0.Ended()
                                && v.log == v0.log + [v0.Marked().Interrupted(t).log[|v0.log|]])
  {
  }

  ghost predicate Recovering(d0: Node, d: Node) {
    && Contiguous(d.db.events)
    && (forall t {:trigger ViewOf(d, t)} :: Between(ViewOf(d0, t), ViewOf(d, t), t))
    && (d.threads == MarkThreads(d0).threads
        || (d.threads == d0.threads && forall t {:trigger ViewOf(d, t)} :: ViewOf(d, t) == ViewOf(d0, t)))
  }

  lemma MarkThreadsAgain(d0: Node, d: Node)
    requires Recovering(d0, d)
    ensures MarkThreads(d).threads == MarkThreads(d0).threads
  {
    forall id | id in d.threads && d.threads[id].lastTask.Some?
      ensures LeftOpen(d.db.tasks, d0.threads[id]) ==> LeftOpen(d0.db.tasks, d0.threads[id])
      ensures d.threads == d0.threads ==> (LeftOpen(d.db.tasks, d.threads[id]) <==> LeftOpen(d0.db.tasks, d.threads[id]))
    {
      var t := d.threads[id].lastTask.value;
      BetweenMeans(ViewOf(d0, t), ViewOf(d, t), t);
    }
  }

  lemma BootKeepsRecovering(d0: Node, d: Node, order: seq<string>, k: nat)
    requires Recovering(d0, d) && Lists(d, order)
    ensures Recovering(d0, Boot(d, order, k))
  {
    var d' := Boot(d, order, k);
    MarkThreadsAgain(d0, d);
    BootView(d, order, k, "");
    forall t ensures Between(ViewOf(d0, t), ViewOf(d', t), t) && (k == 0 ==> ViewOf(d', t) == ViewOf(d, t)) {
      BootView(d, order, k, t);
      BetweenKept(ViewOf(d0, t), ViewOf(d, t), t);
    }
  }

  datatype BootRun = BootRun(order: seq<string>, k: nat)

  ghost predicate LegalBoots(d: Node, boots: seq<BootRun>)
    decreases boots
  {
    boots == [] || (Lists(d, boots[0].order) && LegalBoots(Boot(d, boots[0].order, boots[0].k), boots[1..]))
  }

  ghost function Boots(d: Node, boots: seq<BootRun>): Node
    requires LegalBoots(d, boots)
    decreases boots
  {
    if boots == [] then d else Boots(Boot(d, boots[0].order, boots[0].k), boots[1..])
  }

  lemma {:induction false} BootsKeepRecovering(d0: Node, d: Node, boots: seq<BootRun>)
    requires Recovering(d0, d) && LegalBoots(d, boots)
    ensures Recovering(d0, Boots(d, boots))
    decreases boots
  {
    if boots != [] {
      BootKeepsRecovering(d0, d, boots[0].order, boots[0].k);
      BootsKeepRecovering(d0, Boot(d, boots[0].order, boots[0].k), boots[1..]);
    }
  }

  predicate SomeWrite(boots: seq<BootRun>) {
    exists i :: 0 <= i < |boots| && boots[i].k > 0
  }

  lemma {:induction false} ThreadsOverBoots(d0: Node, d: Node, boots: seq<BootRun>)
    requires Recovering(d0, d) && LegalBoots(d, boots)
    requires d.threads == (MarkThreads(d0).threads) || SomeWrite(boots)
    ensures Boots(d, boots).threads == MarkThreads(d0).threads
    decreases boots
  {
    if boots != [] {
      var order, k := boots[0].order, boots[0].k;
      BootKeepsRecovering(d0, d, order, k);
      MarkThreadsAgain(d0, d);
      BootView(d, order, k, "");
      assert forall i :: 0 < i < |boots| ==> boots[i] == boots[1..][i - 1];
      ThreadsOverBoots(d0, Boot(d, order, k), boots[1..]);
    }
  }

  /** Over any boots that made a write at all, however they were cut off, threads are what the one statement
      makes of them, judged by the tables before the first boot. */
  lemma ThreadsAfterBoots(d0: Node, boots: seq<BootRun>)
    requires Contiguous(d0.db.events) && LegalBoots(d0, boots) && SomeWrite(boots)
    ensures ThreadsMarked(d0.db.tasks, d0.threads, Boots(d0, boots).threads)
  {
    ThreadsOverBoots(d0, d0, boots);
    MarkThreadsMeans(d0);
  }

  /** What has become of a binding once all were marked: an open one reads interrupted, or the outcome that its
      ended task already had, and one with an outcome keeps it. */
  predicate BindingFollows(b: Binding, b': Binding, row: Option<TaskRow>) {
    && b'.peer == b.peer && b'.destinationNode == b.destinationNode && b'.destinationTask == b.destinationTask
    && if b.status in {Reached(Completed), Reached(Failed), Reached(Cancelled)} then b'.status == b.status
       else || b'.status == Interrupted
            || (row.Some? && row.value.status in {Completed, Failed, Cancelled} && b'.status == Reached(row.value.status))
  }

  lemma LoopFollows(v: View, v': View, t: string, complete: bool)
    requires v.binding.Some? && LoopOutcome(v.Marked(), v', t, v.Open(), complete)
    ensures v'.binding.Some? && BindingFollows(v.binding.value, v'.binding.value, v.row)
  {
  }

  /** A boot that got as far as its second write leaves no binding pending or streaming; right after that
      write all that were open read interrupted. */
  lemma BindingsAfterBoot(d: Node, order: seq<string>, k: nat, id: string)
    requires Contiguous(d.db.events) && Lists(d, order) && k >= 2 && id in d.bindings
    ensures id in Boot(d, order, k).bindings
    ensures BindingFollows(d.bindings[id], Boot(d, order, k).bindings[id], if id in d.db.tasks then Some(d.db.tasks[id]) else None)
    ensures k == 2 ==> BindingsMarked(d.bindings, Boot(d, order, k).bindings)
  {
    hide RunLoop, LoopOutcome, BindingFollows, BindingsMarked;
    BootMarks(d, order, k);
    var d1 := MarkThreads(d);
    MarkedView(d, id);
    MarkedView(d1, id);
    ListsMarked(d, order, id);
    LoopView(MarkBindings(d1), order, k - 2, id);
    LoopFollows(ViewOf(d, id), ViewOf(Boot(d, order, k), id), id, Complete(MarkBindings(d1), order, k - 2));
  }

  /** Every relay that is still open has its proxy task. */
  ghost predicate AllBound(d: Node) {
    forall id :: Open(d, id) ==> id in d.db.tasks
  }

  ghost predicate IsSettled(d0: Node, d: Node) {
    && (forall t {:trigger ViewOf(d, t)} :: ViewOf(d, t) == Settled(ViewOf(d0, t), t))
    && d.threads == MarkThreads(d0).threads
  }

  lemma CompleteWhenBound(d0: Node, d: Node, order: seq<string>, k: nat)
    requires AllBound(d0) && Recovering(d0, d) && Lists(d, order) && k >= 2 + 2 * |order|
    ensures CompleteBoot(d, order, k)
  {
    forall id | id in order ensures id in d.db.tasks {
      BetweenMeans(ViewOf(d0, id), ViewOf(d, id), id);
      assert Open(d, id);
    }
  }

  lemma TwoBootsSettle(d0: Node, d: Node, first: BootRun, second: BootRun)
    requires AllBound(d0) && Recovering(d0, d)
    requires Lists(d, first.order) && first.k >= 2 + 2 * |first.order|
    requires Lists(Boot(d, first.order, first.k), second.order) && second.k >= 2 + 2 * |second.order|
    ensures IsSettled(d0, Boot(Boot(d, first.order, first.k), second.order, second.k))
  {
    var d1 := Boot(d, first.order, first.k);
    var d2 := Boot(d1, second.order, second.k);
    BootKeepsRecovering(d0, d, first.order, first.k);
    CompleteWhenBound(d0, d, first.order, first.k);
    CompleteWhenBound(d0, d1, second.order, second.k);
    MarkThreadsAgain(d0, d1);
    BootView(d1, second.order, second.k, "");
    forall t ensures ViewOf(d2, t) == Settled(ViewOf(d0, t), t) {
      BootView(d, first.order, first.k, t);
      BootView(d1, second.order, second.k, t);
      BetweenKept(ViewOf(d0, t), ViewOf(d, t), t);
    }
  }

  /** Equal as far as an operator can see: task rows, bindings, threads and every task's log. */
  ghost predicate SameOutcome(a: Node, b: Node) {
    && a.db.tasks == b.db.tasks && a.bindings == b.bindings && a.threads == b.threads
    && forall t :: EventsOf(a.db.events, t) == EventsOf(b.db.events, t)
  }

  lemma SameRows(a: Node, b: Node)
    requires forall t {:trigger ViewOf(a, t)} :: ViewOf(a, t) == ViewOf(b, t)
    ensures a.db.tasks == b.db.tasks
  {
    forall t ensures t in a.db.tasks <==> t in b.db.tasks
             ensures t in a.db.tasks && t in b.db.tasks ==> a.db.tasks[t] == b.db.tasks[t]
    {
      assert ViewOf(a, t).row == ViewOf(b, t).row;
    }
  }

  lemma SameBindings(a: Node, b: Node)
    requires forall t {:trigger ViewOf(a, t)} :: ViewOf(a, t) == ViewOf(b, t)
    ensures a.bindings == b.bindings
  {
    forall t ensures t in a.bindings <==> t in b.bindings
             ensures t in a.bindings && t in b.bindings ==> a.bindings[t] == b.bindings[t]
    {
      assert ViewOf(a, t).binding == ViewOf(b, t).binding;
    }
  }

  lemma SettledIsUnique(d0: Node, a: Node, b: Node)
    requires IsSettled(d0, a) && IsSettled(d0, b)
    ensures SameOutcome(a, b)
  {
    forall t ensures ViewOf(a, t) == ViewOf(b, t) {
    }
    SameRows(a, b);
    SameBindings(a, b);
    forall t ensures EventsOf(a.db.events, t) == EventsOf(b.db.events, t) {
      assert ViewOf(a, t).log == ViewOf(b, t).log;
    }
  }

  /** Crash-anywhere recovery: boot any number of times, cut each boot off after any number of writes,
      list the bindings in any order each time, then boot twice to the end. Task rows, bindings,
      threads and logs are those of two undisturbed boots. */
  lemma CrashesLeaveNoTrace(d0: Node, boots: seq<BootRun>, first: BootRun, second: BootRun, clean1: BootRun, clean2: BootRun)
    requires Contiguous(d0.db.events) && AllBound(d0)
    requires LegalBoots(d0, boots) && LegalBoots(Boots(d0, boots), [first, second]) && LegalBoots(d0, [clean1, clean2])
    requires forall b :: b in [first, second, clean1, clean2] ==> b.k >= 2 + 2 * |b.order|
    ensures SameOutcome(Boots(Boots(d0, boots), [first, second]), Boots(d0, [clean1, clean2]))
  {
    BootsKeepRecovering(d0, d0, boots);
    var d := Boots(d0, boots);
    assert [first, second][1..] == [second] && [clean1, clean2][1..] == [clean2];
    assert first in [first, second, clean1, clean2] && second in [first, second, clean1, clean2];
    assert clean1 in [first, second, clean1, clean2] && clean2 in [first, second, clean1, clean2];
    TwoBoots(d, first, second);
    TwoBoots(d0, clean1, clean2);
    TwoBootsSettle(d0, d, first, second);
    TwoBootsSettle(d0, d0, clean1, clean2);
    SettledIsUnique(d0, Boots(d, [first, second]), Boots(d0, [clean1, clean2]));
  }

  lemma TwoBoots(d: Node, a: BootRun, b: BootRun)
    requires LegalBoots(d, [a, b])
    ensures Lists(d, a.order) && Lists(Boot(d, a.order, a.k), b.order)
    ensures Boots(d, [a, b]) == Boot(Boot(d, a.order, a.k), b.order, b.k)
  {
    assert [a, b][1..] == [b] && [b][1..] == [];
    var d1 := Boot(d, a.order, a.k);
    assert LegalBoots(d1, [b]);
    assert Boots(d1, [b]) == Boot(d1, b.order, b.k);
  }

  /** Over all boots, however they were cut off: a task that was terminal, or had no open relay, keeps
      its row and its log; any other gains at most one event, the interruption. */
  lemma AtMostOneInterruption(d0: Node, boots: seq<BootRun>, t: string)
    requires Contiguous(d0.db.events) && LegalBoots(d0, boots)
    ensures var v0, v := ViewOf(d0, t), ViewOf(Boots(d0, boots), t);
            && (v0.Ended() || !v0.Open() ==> v.row == v0.row && v.log == v0.log)
            && (v.log != v0.log ==> |v.log| == |v0.log| + 1 && v.log[..|v0.log|] == v0.log
                                    && v.log[|v0.log|].state == Failed && v.log[|v0.log|].source == FromTransport
                                    && v.log[|v0.log|].seqNo == |v0.log| + 1 && v.Ended()
                                    && v0.binding.Some? && IsInterruption(v.log[|v0.log|], t, v0.binding.value))
  {
    BootsKeepRecovering(d0, d0, boots);
    BetweenMeans(ViewOf(d0, t), ViewOf(Boots(d0, boots), t), t);
  }

  /** A node boots, now or ever, exactly when no open relay has lost its proxy task: one that has fails
      every boot to come at the same place. */
  lemma BootsOnlyWhenBound(d0: Node, boots: seq<BootRun>, order: seq<string>, k: nat)
    requires Contiguous(d0.db.events) && LegalBoots(d0, boots) && Lists(Boots(d0, boots), order)
    requires k >= 2 + 2 * |order|
    ensures CompleteBoot(Boots(d0, boots), order, k) <==> AllBound(d0)
  {
    BootsKeepRecovering(d0, d0, boots);
    var d := Boots(d0, boots);
    if AllBound(d0) {
      CompleteWhenBound(d0, d, order, k);
    } else {
      var id :| Open(d0, id) && id !in d0.db.tasks;
      BetweenMeans(ViewOf(d0, id), ViewOf(d, id), id);
      assert Open(d, id) && id !in d.db.tasks;
    }
  }

  /** The event of an interrupted relay fails its task and names the relay's other end. */
  predicate IsInterruption(e: TaskEvent, t: string, b: Binding) {
    && e.taskId == t && e.kind == TaskFailed && e.state == Failed && e.source == FromTransport
    && e.message == "Remote relay interrupted by origin restart"
    && e.data == map["remote_peer_id" := JStr(b.peer), "destination_node_id" := JStr(b.destinationNode),
                     "destination_task_id" := JStr(b.destinationTask), "relay_status" := JStr("relay_interrupted")]
  }

  /** What two boots come to, in full: a relay whose proxy task had ended takes over its status; one whose
      proxy task had not leaves it failed, with the reason, the destination as its binding and one more
      event in its log. */
  lemma SettledMeans(v: View, t: string)
    ensures var s := Settled(v, t);
            && (!v.Open() ==> s == v)
            && (v.Open() && v.Ended() ==> s.row == v.row && s.log == v.log
                                          && s.binding == Some(v.binding.value.(status := Reached(v.row.value.status))))
            && (v.Open() && v.row.Some? && !v.Ended() ==>
                  && s.row.Some? && s.row.value.status == Failed && s.row.value.lastError.Some?
                  && s.row.value.lastError.value.reason == "remote relay interrupted"
                  && s.row.value.resultArtifact == v.row.value.resultArtifact
                  && s.row.value.binding == Some(v.binding.value.destinationTask)
                  && s.row.value.sessionId == v.row.value.sessionId && s.row.value.executionId == v.row.value.executionId
                  && |s.log| == |v.log| + 1 && s.log[..|v.log|] == v.log && IsInterruption(s.log[|v.log|], t, v.binding.value)
                  && s.log[|v.log|].seqNo == |v.log| + 1
                  && s.binding == Some(v.binding.value.(status := Reached(Failed))))
  {
    SettledStays(v, t);
  }

  // ---- The thread turn, which is written outside the transaction ----

  function TurnOf(d: Node, t: string): Option<TaskStatus> {
    if t in d.turns then Some(d.turns[t]) else None
  }

  function StatusOf(d: Node, t: string): Option<TaskStatus> {
    if t in d.db.tasks then Some(d.db.tasks[t].status) else None
  }

  predicate Ended(d: Node, t: string) {
    t in d.db.tasks && d.db.tasks[t].status.IsTerminal()
  }

  /** The writes of the loop before it comes to `order[i]`. */
  function CostBefore(d: Node, order: seq<string>, i: nat): nat
    requires i <= |order| && forall id :: id in order ==> id in d.db.tasks
  {
    if i == 0 then 0 else Cost(d, order[0]) + CostBefore(d, order[1..], i - 1)
  }

  lemma FailTaskStatuses(d: Node, id: string, t: string)
    requires id in d.bindings && id in d.db.tasks
    ensures StatusOf(FailTask(d, id), t) == (if t == id then Some(Failed) else StatusOf(d, t))
    ensures FailTask(d, id).turns == d.turns
  {
  }

  /** What a visit does to the status of a task and of its turn. */
  lemma VisitStatuses(d: Node, id: string, t: string)
    requires id in d.bindings && id in d.db.tasks
    ensures t != id || Ended(d, t) ==> StatusOf(Visit(d, id), t) == StatusOf(d, t) && TurnOf(Visit(d, id), t) == TurnOf(d, t)
    ensures t == id && !Ended(d, t) ==> StatusOf(Visit(d, id), t) == Some(Failed)
    ensures t == id && !Ended(d, t) && t in d.turns ==> TurnOf(Visit(d, id), t) == Some(Failed)
  {
    hide FailTask;
    FailTaskStatuses(d, id, t);
  }

  /** A task that is not listed, or has ended, keeps its status and its turn. */
  lemma {:induction false} LoopLeavesStatuses(d: Node, order: seq<string>, k: nat, t: string)
    requires forall id :: id in order ==> id in d.bindings
    requires t !in order || Ended(d, t)
    ensures TurnOf(RunLoop(d, order, k), t) == TurnOf(d, t) && StatusOf(RunLoop(d, order, k), t) == StatusOf(d, t)
    decreases order
  {
    hide Visit, FailTask;
    if order != [] && k > 0 && order[0] in d.db.tasks {
      assert order[0] in order && forall id :: id in order[1..] ==> id in order;
      VisitStatuses(d, order[0], t);
      FailTaskStatuses(d, order[0], t);
      if k >= Cost(d, order[0]) {
        LoopLeavesStatuses(Visit(d, order[0]), order[1..], k - Cost(d, order[0]), t);
      }
    }
  }

  lemma {:induction false} CostBeforeStays(d: Node, e: Node, order: seq<string>, i: nat)
    requires i <= |order| && forall id :: id in order ==> id in d.db.tasks && id in e.db.tasks && StatusOf(d, id) == StatusOf(e, id)
    ensures CostBefore(d, order, i) == CostBefore(e, order, i)
    decreases i
  {
    if i > 0 {
      assert order[0] in order && forall id :: id in order[1..] ==> id in order;
      CostBeforeStays(d, e, order[1..], i - 1);
    }
  }

  lemma VisitLeavesOthers(d: Node, order: seq<string>)
    requires order != [] && forall id :: id in order ==> id in d.bindings && id in d.db.tasks
    requires Distinct(order)
    ensures order[0] in d.bindings && order[0] in d.db.tasks
    ensures forall id :: id in order[1..] ==> id in d.db.tasks && id in d.bindings && id in Visit(d, order[0]).db.tasks
                                              && StatusOf(Visit(d, order[0]), id) == StatusOf(d, id)
  {
    hide Visit, FailTask, Distinct;
    FirstOfDistinct(order, order[0]);
    assert order[0] in order && forall id :: id in order[1..] ==> id in order;
    forall id | id in order[1..] ensures StatusOf(Visit(d, order[0]), id) == StatusOf(d, id) {
      VisitStatuses(d, order[0], id);
    }
  }

  /** When the task at `order[i]` fails, and when its turn does, in a loop cut off after `k` writes. */
  lemma {:induction false} TurnLags(d: Node, order: seq<string>, k: nat, i: nat)
    requires i < |order| && forall id :: id in order ==> id in d.bindings && id in d.db.tasks
    requires Distinct(order)
    requires order[i] in d.turns && !Ended(d, order[i])
    ensures var d', before := RunLoop(d, order, k), CostBefore(d, order, i);
            && StatusOf(d', order[i]) == (if k >= before + 1 then Some(Failed) else StatusOf(d, order[i]))
            && TurnOf(d', order[i]) == (if k >= before + 2 then Some(Failed) else TurnOf(d, order[i]))
    decreases i
  {
    hide Visit, FailTask, Distinct;
    VisitLeavesOthers(d, order);
    var id, rest, t := order[0], order[1..], order[i];
    FirstOfDistinct(order, t);
    VisitStatuses(d, id, t);
    FailTaskStatuses(d, id, t);
    if k >= Cost(d, id) {
      if i == 0 {
        LoopLeavesStatuses(Visit(d, id), rest, k - Cost(d, id), t);
      } else {
        CostBeforeStays(d, Visit(d, id), rest, i - 1);
        TurnLags(Visit(d, id), rest, k - Cost(d, id), i - 1);
      }
    }
  }

  lemma MarkingKeepsTasks(d: Node)
    ensures MarkThreads(d).db == d.db && MarkThreads(d).turns == d.turns
    ensures MarkBindings(MarkThreads(d)).db == d.db && MarkBindings(MarkThreads(d)).turns == d.turns
  {
  }

  lemma StaleInLoop(d: Node, order: seq<string>, k: nat, i: nat)
    requires i < |order| && forall id :: id in order ==> id in d.bindings && id in d.db.tasks
    requires Distinct(order)
    requires order[i] in d.turns && d.turns[order[i]] != Failed && !Ended(d, order[i])
    ensures StatusOf(RunLoop(d, order, k), order[i]) == Some(Failed) && TurnOf(RunLoop(d, order, k), order[i]) == TurnOf(d, order[i])
            <==> k == CostBefore(d, order, i) + 1
  {
    hide RunLoop, Visit, FailTask, Distinct;
    TurnLags(d, order, k, i);
  }

  /** Turn status is not part of what recovery restores. A boot leaves a failed task beside a turn that
      still has its old status exactly when it is cut off right after that task's transaction. */
  lemma StaleTurnExactly(d: Node, order: seq<string>, k: nat, i: nat)
    requires Lists(d, order) && i < |order| && forall id :: id in order ==> id in d.db.tasks
    requires order[i] in d.turns && d.turns[order[i]] != Failed && !Ended(d, order[i])
    ensures var t, d' := order[i], Boot(d, order, k);
            StatusOf(d', t) == Some(Failed) && TurnOf(d', t) == TurnOf(d, t) <==> k == CostBefore(d, order, i) + 3
  {
    hide RunLoop, Visit, FailTask, MarkBindings, MarkThreads, Boot, Distinct;
    ListsMarked(d, order, order[i]);
    MarkingKeepsTasks(d);
    BootStatuses(d, order, k, order[i]);
    if k > 1 {
      var d2 := MarkBindings(MarkThreads(d));
      CostBeforeStays(d, d2, order, i);
      StaleInLoop(d2, order, k - 2, i);
    }
  }

  lemma BootStatuses(d: Node, order: seq<string>, k: nat, t: string)
    requires Lists(d, order) && forall id :: id in order ==> id in MarkBindings(MarkThreads(d)).bindings
    ensures var d' := if k > 1 then RunLoop(MarkBindings(MarkThreads(d)), order, k - 2) else d;
            StatusOf(Boot(d, order, k), t) == StatusOf(d', t) && TurnOf(Boot(d, order, k), t) == TurnOf(d', t)
  {
    hide RunLoop, MarkBindings, MarkThreads;
    MarkingKeepsTasks(d);
  }

  /** And no later boot repairs it: the turn of a task that has ended is never written again. */
  lemma {:induction false} EndedTurnStays(d: Node, boots: seq<BootRun>, t: string)
    requires LegalBoots(d, boots) && Ended(d, t)
    ensures TurnOf(Boots(d, boots), t) == TurnOf(d, t)
    decreases boots
  {
    hide RunLoop;
    if boots != [] {
      var order, k := boots[0].order, boots[0].k;
      var d' := Boot(d, order, k);
      ListsMarked(d, order, t);
      if k > 1 {
        LoopLeavesStatuses(MarkBindings(MarkThreads(d)), order, k - 2, t);
      }
      EndedTurnStays(d', boots[1..], t);
    }
  }

  lemma {:induction false} LoopKeepsThreads(d: Node, order: seq<string>, k: nat)
    requires forall id :: id in order ==> id in d.bindings
    ensures RunLoop(d, order, k).threads == d.threads && (k == 0 ==> RunLoop(d, order, k) == d)
    decreases order
  {
    hide Visit;
    if order != [] && k > 0 && order[0] in d.db.tasks && k >= Cost(d, order[0]) {
      LoopKeepsThreads(Visit(d, order[0]), order[1..], k - Cost(d, order[0]));
    }
  }

  /** What one boot does to threads and bindings before its loop. */
  lemma BootMarks(d: Node, order: seq<string>, k: nat)
    requires Lists(d, order)
    ensures k > 0 ==> ThreadsMarked(d.db.tasks, d.threads, Boot(d, order, k).threads)
    ensures k == 2 ==> BindingsMarked(d.bindings, Boot(d, order, k).bindings)
  {
    hide ThreadsMarked, BindingsMarked, RunLoop;
    MarkThreadsMeans(d);
    MarkBindingsMeans(MarkThreads(d));
    ListsMarked(d, order, "");
    if k >= 2 {
      LoopKeepsThreads(MarkBindings(MarkThreads(d)), order, k - 2);
    }
  }

  // ---- The routine itself ----

  class NodeTables {
    const store: TaskStore
    var bindings: map<string, Binding>
    var threads: map<string, ThreadRow>
    var turns: map<string, TaskStatus>

    function Contents(): Node
      reads this, store
    {
      Node(store.Contents(), bindings, threads, turns)
    }

    constructor (store: TaskStore, bindings: map<string, Binding>, threads: map<string, ThreadRow>, turns: map<string, TaskStatus>)
      ensures this.store == store && Contents() == Node(store.Contents(), bindings, threads, turns)
    {
      this.store, this.bindings, this.threads, this.turns := store, bindings, threads, turns;
    }

    /** One UPDATE statement: every thread or none. */
    method MarkInterruptedThreadsOnRestart()
      modifies this`threads
      ensures Contents() == MarkThreads(old(Contents()))
      ensures ThreadsMarked(store.tasks, old(threads), threads)
    {
      MarkThreadsMeans(Contents());
      threads := map id | id in threads ::
        if LeftOpen(store.tasks, threads[id]) then threads[id].(status := ThreadInterrupted) else threads[id];
    }

    method MarkInterruptedRelayBindings()
      modifies this`bindings
      ensures Contents() == MarkBindings(old(Contents()))
      ensures BindingsMarked(old(bindings), bindings)
    {
      MarkBindingsMeans(Contents());
      bindings := map id | id in bindings :: MarkBinding(bindings[id]);
    }

    method UpdateRemoteTaskBindingStatus(id: string, status: RelayStatus)
      modifies this`bindings
      ensures bindings == if id in old(bindings) then old(bindings)[id := old(bindings)[id].(status := status)] else old(bindings)
    {
      if id in bindings {
        bindings := bindings[id := bindings[id].(status := status)];
      }
    }

    /** The append of one interruption event, up to `budget` of its two writes. */
    method FailInterrupted(id: string, budget: nat) returns (left: nat, done: bool)
      requires id in bindings && id in store.tasks && budget > 0
      modifies this`turns, store
      ensures Contents() == if budget == 1 then FailTask(old(Contents()), id) else FailTurn(FailTask(old(Contents()), id), id)
      ensures done <==> budget > 1
      ensures done ==> left == budget - 2
    {
      var seqNo := store.NextSeq(id);
      var draft := InterruptionDraft(id, bindings[id]);
      var committed := store.AppendEventAndUpdateTask(draft.(event := draft.event.(seqNo := seqNo)), NoFault);
      if budget == 1 {
        return 0, false;
      }
      if id in turns {
        turns := turns[id := Failed];
      }
      return budget - 2, true;
    }

    /** A boot that is cut off after `budget` writes; `ok` when it came to its end. */
    method ReconcileRestartState(order: seq<string>, budget: nat) returns (ok: bool)
      requires Lists(Contents(), order)
      modifies this, store
      ensures Contents() == Boot(old(Contents()), order, budget)
      ensures budget >= 2 + 2 * |order| ==> (ok <==> CompleteBoot(old(Contents()), order, budget))
      ensures budget > 0 ==> ThreadsMarked(old(store.tasks), old(threads), threads)
      ensures budget == 2 ==> BindingsMarked(old(bindings), bindings)
    {
      hide ThreadsMarked, BindingsMarked, RunLoop;
      BootMarks(Contents(), order, budget);
      ListsMarked(Contents(), order, "");
      if budget == 0 {
        return false;
      }
      MarkInterruptedThreadsOnRestart();
      if budget == 1 {
        return false;
      }
      MarkInterruptedRelayBindings();
      ok := RepairRelays(order, budget - 2);
    }

    /** One turn of the loop, up to `budget` writes. */
    method RepairRelay(id: string, budget: nat) returns (left: nat, done: bool)
      requires id in bindings && id in store.tasks && budget > 0
      modifies this, store
      ensures done <==> budget >= Cost(old(Contents()), id)
      ensures done ==> left == budget - Cost(old(Contents()), id) && Contents() == Visit(old(Contents()), id)
      ensures !done ==> Contents() == FailTask(old(Contents()), id)
    {
      if store.tasks[id].status.IsTerminal() {
        UpdateRemoteTaskBindingStatus(id, Reached(store.tasks[id].status));
        left, done := budget - 1, true;
      } else {
        left, done := FailInterrupted(id, budget);
      }
    }

    method RepairRelays(order: seq<string>, budget: nat) returns (ok: bool)
      requires forall id :: id in order ==> id in bindings
      modifies this, store
      ensures Contents() == RunLoop(old(Contents()), order, budget)
      ensures budget >= 2 * |order| ==> (ok <==> Complete(old(Contents()), order, budget))
    {
      hide Visit, FailTask;
      var i: nat, left: nat := 0, budget;
      while i < |order|
        invariant 0 <= i <= |order| && 0 <= left
        invariant forall id :: id in order ==> id in bindings
        invariant RunLoop(Contents(), order[i..], left) == RunLoop(old(Contents()), order, budget)
        invariant Contents().db.tasks.Keys == old(Contents().db.tasks.Keys) && forall j :: 0 <= j < i ==> order[j] in store.tasks
        invariant budget >= 2 * |order| ==> left >= 2 * (|order| - i)
      {
        var id := order[i];
        assert order[i..][1..] == order[i + 1..];
        if id !in store.tasks || left == 0 {
          return false;
        }
        ghost var before := Contents();
        var done;
        left, done := RepairRelay(id, left);
        if !done {
          return false;
        }
        assert Contents().bindings.Keys == before.bindings.Keys;
        i := i + 1;
      }
      return true;
    }
  }
}
