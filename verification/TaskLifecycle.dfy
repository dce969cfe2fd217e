/** runTask: launch, dispatch and the mirroring of one adapter run into the task's log. */
module TaskLifecycle {
  import opened TaskTypes
  import opened EventStore
  import opened Orchestrator
  import RunPipeline
  import AcpRun

  /** Everything runTask finds out on its way: what resolves, how the runtime and the adapter answer, and
      what the select loop takes. `artifact` is the id of a stored result, "" when storing it failed. */
  datatype World = World(
    taskId: string,
    resolves: bool,
    adapterFound: bool,
    adapterName: string,
    healthy: bool,
    launchIfDown: bool,
    ensureError: Option<string>,
    leaseId: string,
    target: string,
    submitError: Option<string>,
    handle: Handle,
    stream: seq<RunPipeline.Item>,
    artifact: string)

  function Note(w: World, kind: EventKind, state: TaskStatus, source: EventSource, message: string, data: JsonMap): Mutation {
    Mutation(TaskEvent(w.taskId, 0, kind, state, source, message, data), None, None, "")
  }

  /** A failure event: the reason is its message and the error of the task row. */
  function Failure(w: World, source: EventSource, reason: string, detail: string, remote: Option<Handle>): Mutation {
    Mutation(TaskEvent(w.taskId, 0, TaskFailed, Failed, source, reason, map["detail" := JStr(detail)]),
             remote, Some(TaskError(reason, detail)), "")
  }

  /** An event of the adapter, as it is appended. */
  function AdapterDraft(w: World, e: TaskEvent): Mutation {
    Mutation(e.(taskId := w.taskId), Some(w.handle),
             if e.state == Failed then Some(TaskError("remote_failed", StringAt(e.data, "reason"))) else None,
             if e.state == Completed && "result" in e.data && e.data["result"].JObj? then w.artifact else "")
  }

  // ---- What is appended, in order ----

  function Mirrored(w: World, stream: seq<RunPipeline.Item>): seq<Mutation>
    decreases stream
  {
    if stream == [] then []
    else match stream[0]
      case Adapter(e) => [AdapterDraft(w, e)] + if e.state.IsTerminal() then [] else Mirrored(w, stream[1..])
      case StreamError(detail) => [Failure(w, FromAdapter, "stream_failed", detail, Some(w.handle))]
      case EventsClosed => []
      case ErrsClosed => []
  }

  function Submission(w: World): seq<Mutation> {
    [Note(w, TaskDispatching, Dispatching, FromCore, "Dispatching task", map["target_agent_id" := JStr(w.target)])]
    + if w.submitError.Some? then [Failure(w, FromAdapter, "submit_failed", w.submitError.value, None)]
      else [Note(w, TaskDispatching, Dispatching, FromAdapter, "Task submitted to runtime",
                 map["binding" := JStr(w.handle.binding)]).(remote := Some(w.handle))]
           + Mirrored(w, w.stream)
  }

  function Launched(w: World): Mutation {
    Note(w, RuntimeReady, Ready, FromRuntime, "Runtime ready", map["lease_id" := JStr(w.leaseId)])
  }

  function Launch(w: World): seq<Mutation> {
    [Note(w, RuntimePendingLaunch, PendingLaunch, FromCore, "Runtime launch required", map[]),
     Note(w, RuntimeLaunching, Launching, FromRuntime, "Launching runtime", map[])]
  }

  /** The runtime is up after the launch part. */
  predicate IsUp(w: World) {
    (w.healthy || w.launchIfDown) && w.ensureError == None
  }

  function LaunchPart(w: World): seq<Mutation> {
    if w.healthy then
      [if w.ensureError.Some? then Failure(w, FromRuntime, "ensure_ready_failed", w.ensureError.value, None) else Launched(w)]
    else if w.launchIfDown then
      Launch(w) + [if w.ensureError.Some? then Failure(w, FromRuntime, "launch_failed", w.ensureError.value, None) else Launched(w)]
    else
      [Failure(w, FromRuntime, "runtime unavailable", "launch_if_down=false and runtime reported unhealthy", None)]
  }

  function Attempts(w: World): seq<Mutation> {
    if !w.resolves then []
    else if !w.adapterFound then [Failure(w, FromCore, "adapter missing", w.adapterName, None)]
    else LaunchPart(w) + if IsUp(w) then Submission(w) else []
  }

  // ---- What the attempts say ----

  /** A progress event of the task. */
  predicate Says(m: Mutation, taskId: string, kind: EventKind, state: TaskStatus, source: EventSource, message: string) {
    && m.event.taskId == taskId && m.event.kind == kind && m.event.state == state && m.event.source == source
    && m.event.message == message && m.error == None && m.resultArtifact == ""
  }

  /** A failure of the task, with its reason in the event and in the row. */
  predicate Fails(m: Mutation, taskId: string, source: EventSource, reason: string, detail: string) {
    && m.event.taskId == taskId && m.event.kind == TaskFailed && m.event.state == Failed && m.event.source == source
    && m.event.message == reason && m.event.data == map["detail" := JStr(detail)]
    && m.error == Some(TaskError(reason, detail)) && m.resultArtifact == ""
  }

  /** An adapter event, unchanged but for the task id: a failed one gives the row its error, a completed one with
      a result its artifact. */
  predicate Copies(w: World, m: Mutation, e: TaskEvent) {
    && m.event.taskId == w.taskId && m.event.kind == e.kind && m.event.state == e.state && m.event.source == e.source
    && m.event.message == e.message && m.event.data == e.data && m.remote == Some(w.handle)
    && (e.state != Failed ==> m.error == None)
    && (e.state == Failed ==> m.error.Some? && m.error.value.reason == "remote_failed"
                              && ("reason" in e.data && e.data["reason"].JStr? ==> m.error.value.detail == e.data["reason"].text))
    && m.resultArtifact == if e.state == Completed && "result" in e.data && e.data["result"].JObj? then w.artifact else ""
  }

  /** What is appended for the items of a stream: one copy for each adapter event, up to a terminal one or to the
      first item that is none; a stream error then adds its failure, a closed channel nothing. */
  ghost predicate StreamSays(w: World, stream: seq<RunPipeline.Item>, ms: seq<Mutation>, n: nat) {
    && n <= |stream| && n <= |ms|
    && (forall i :: 0 <= i < n ==> stream[i].Adapter? && Copies(w, ms[i], stream[i].event))
    && (forall i :: 0 <= i < n - 1 ==> !stream[i].event.state.IsTerminal())
    && var over := n > 0 && stream[n - 1].event.state in {Completed, Failed, Cancelled};
       if over || n == |stream| then |ms| == n
       else && !stream[n].Adapter?
            && (stream[n].StreamError? ==> |ms| == n + 1 && ms[n].remote == Some(w.handle)
                                           && Fails(ms[n], w.taskId, FromAdapter, "stream_failed", stream[n].detail))
            && (!stream[n].StreamError? ==> |ms| == n)
  }

  lemma {:induction false} MirroredSays(w: World, stream: seq<RunPipeline.Item>) returns (n: nat)
    ensures StreamSays(w, stream, Mirrored(w, stream), n)
    decreases stream
  {
    hide StreamSays;
    n := 0;
    if stream != [] && stream[0].Adapter? {
      n := 1;
      var e := stream[0].event;
      if e.state.IsTerminal() {
        StreamEnds(w, stream);
      } else {
        var rest := MirroredSays(w, stream[1..]);
        n := 1 + rest;
        StreamStep(w, stream, Mirrored(w, stream[1..]), rest);
      }
    } else {
      StreamStops(w, stream);
    }
  }

  lemma StreamStops(w: World, stream: seq<RunPipeline.Item>)
    requires stream == [] || !stream[0].Adapter?
    ensures StreamSays(w, stream, Mirrored(w, stream), 0)
  {
  }

  lemma StreamEnds(w: World, stream: seq<RunPipeline.Item>)
    requires stream != [] && stream[0].Adapter? && stream[0].event.state.IsTerminal()
    ensures StreamSays(w, stream, Mirrored(w, stream), 1)
  {
  }

  lemma StreamStep(w: World, stream: seq<RunPipeline.Item>, rest: seq<Mutation>, n: nat)
    requires stream != [] && stream[0].Adapter? && !stream[0].event.state.IsTerminal()
    requires StreamSays(w, stream[1..], rest, n)
    ensures StreamSays(w, stream, [AdapterDraft(w, stream[0].event)] + rest, n + 1)
  {
    CopyIs(w, stream[0].event);
    hide Copies, Fails, AdapterDraft;
    var all := [AdapterDraft(w, stream[0].event)] + rest;
    assert forall i :: 0 < i < |stream| ==> stream[i] == stream[1..][i - 1];
    assert forall i :: 0 < i < |all| ==> all[i] == rest[i - 1];
  }

  lemma CopyIs(w: World, e: TaskEvent)
    ensures Copies(w, AdapterDraft(w, e), e)
  {
  }

  /** From the dispatch on. */
  ghost predicate DispatchSays(w: World, ms: seq<Mutation>, n: nat) {
    && |ms| >= 2
    && Says(ms[0], w.taskId, TaskDispatching, Dispatching, FromCore, "Dispatching task") && ms[0].remote == None
    && ms[0].event.data == map["target_agent_id" := JStr(w.target)]
    && if w.submitError.Some? then |ms| == 2 && Fails(ms[1], w.taskId, FromAdapter, "submit_failed", w.submitError.value)
       else && Says(ms[1], w.taskId, TaskDispatching, Dispatching, FromAdapter, "Task submitted to runtime")
            && ms[1].remote == Some(w.handle) && ms[1].event.data == map["binding" := JStr(w.handle.binding)]
            && StreamSays(w, w.stream, ms[2..], n)
  }

  predicate ReadySays(w: World, m: Mutation) {
    Says(m, w.taskId, RuntimeReady, Ready, FromRuntime, "Runtime ready") && m.event.data == map["lease_id" := JStr(w.leaseId)]
  }

  /** The launch: a ready event from a healthy runtime; two launch events first when it is down and may be
      launched; and a failure when it may not, or when getting it ready fails. */
  predicate LaunchSays(w: World, ms: seq<Mutation>) {
    if w.healthy then
      && |ms| == 1
      && (w.ensureError.Some? ==> Fails(ms[0], w.taskId, FromRuntime, "ensure_ready_failed", w.ensureError.value))
      && (w.ensureError == None ==> ReadySays(w, ms[0]))
    else if w.launchIfDown then
      && |ms| == 3
      && Says(ms[0], w.taskId, RuntimePendingLaunch, PendingLaunch, FromCore, "Runtime launch required")
      && Says(ms[1], w.taskId, RuntimeLaunching, Launching, FromRuntime, "Launching runtime")
      && (w.ensureError.Some? ==> Fails(ms[2], w.taskId, FromRuntime, "launch_failed", w.ensureError.value))
      && (w.ensureError == None ==> ReadySays(w, ms[2]))
    else
      |ms| == 1 && Fails(ms[0], w.taskId, FromRuntime, "runtime unavailable", "launch_if_down=false and runtime reported unhealthy")
  }

  lemma LaunchPartSays(w: World)
    ensures LaunchSays(w, LaunchPart(w))
  {
  }

  /** A task or target that does not resolve makes runTask leave without a word, a missing adapter with a
      failure. */
  lemma NothingToRun(w: World)
    ensures !w.resolves ==> Attempts(w) == []
    ensures w.resolves && !w.adapterFound ==>
              |Attempts(w)| == 1 && Fails(Attempts(w)[0], w.taskId, FromCore, "adapter missing", w.adapterName)
  {
  }

  /** Everything runTask attempts to append for a task that it can run, by the answers it gets: the launch, and the
      dispatch and what follows it exactly when the launch ends with the runtime up. */
  lemma AttemptsSay(w: World) returns (k: nat, n: nat)
    requires w.resolves && w.adapterFound
    ensures k <= |Attempts(w)| && LaunchSays(w, Attempts(w)[..k])
    ensures if (w.healthy || w.launchIfDown) && w.ensureError == None then DispatchSays(w, Attempts(w)[k..], n) else k == |Attempts(w)|
  {
    hide DispatchSays, Submission, LaunchSays, LaunchPart, StreamSays, Attempts;
    n := MirroredSays(w, w.stream);
    SubmissionSays(w, n);
    LaunchPartSays(w);
    k := |LaunchPart(w)|;
    AttemptsSplit(w);
  }

  lemma AttemptsSplit(w: World)
    requires w.resolves && w.adapterFound
    ensures var k := |LaunchPart(w)|;
            k <= |Attempts(w)| && Attempts(w)[..k] == LaunchPart(w) && Attempts(w)[k..] == if IsUp(w) then Submission(w) else []
  {
    hide LaunchPart, Submission;
  }

  lemma SubmissionSays(w: World, n: nat)
    requires StreamSays(w, w.stream, Mirrored(w, w.stream), n)
    ensures DispatchSays(w, Submission(w), n)
  {
    hide StreamSays, Mirrored;
    assert w.submitError == None ==> Submission(w)[2..] == Mirrored(w, w.stream);
  }

  // ---- The lifecycle as a state machine ----

  datatype Stage = New | LaunchPending | LaunchStarted | RuntimeUp | Dispatched | Submitted | Ended

  /** What may follow in a task's life, and where it leads. */
  function Next(stage: Stage, m: Mutation): Option<Stage> {
    var e := m.event;
    if e.state.IsTerminal() then (if stage == Ended || stage == LaunchPending then None else Some(Ended))
    else match stage
      case New =>
        if e.kind == RuntimeReady && e.state == Ready then Some(RuntimeUp)
        else if e.kind == RuntimePendingLaunch && e.state == PendingLaunch then Some(LaunchPending) else None
      case LaunchPending => if e.kind == RuntimeLaunching && e.state == Launching then Some(LaunchStarted) else None
      case LaunchStarted => if e.kind == RuntimeReady && e.state == Ready then Some(RuntimeUp) else None
      case RuntimeUp => if e.kind == TaskDispatching && e.source == FromCore then Some(Dispatched) else None
      case Dispatched => if e.kind == TaskDispatching && e.source == FromAdapter then Some(Submitted) else None
      case Submitted => Some(Submitted)
      case Ended => None
  }

  predicate Accepts(stage: Stage, ms: seq<Mutation>)
    decreases ms
  {
    ms == [] || (Next(stage, ms[0]).Some? && Accepts(Next(stage, ms[0]).value, ms[1..]))
  }

  lemma AcceptsCons(stage: Stage, m: Mutation, rest: seq<Mutation>)
    ensures Accepts(stage, [m] + rest) <==> Next(stage, m).Some? && Accepts(Next(stage, m).value, rest)
  {
    assert ([m] + rest)[1..] == rest;
  }

  lemma {:induction false} MirroredAccepted(w: World, stream: seq<RunPipeline.Item>)
    ensures Accepts(Submitted, Mirrored(w, stream))
    decreases stream
  {
    if stream != [] && stream[0].Adapter? {
      var e := stream[0].event;
      MirroredAccepted(w, stream[1..]);
      AcceptsCons(Submitted, AdapterDraft(w, e), if e.state.IsTerminal() then [] else Mirrored(w, stream[1..]));
    }
  }

  lemma SubmissionAccepted(w: World)
    ensures Accepts(RuntimeUp, Submission(w))
  {
    hide Mirrored;
    var first := Submission(w)[0];
    var rest := Submission(w)[1..];
    assert Submission(w) == [first] + rest;
    AcceptsCons(RuntimeUp, first, rest);
    if w.submitError.Some? {
      assert rest == [Failure(w, FromAdapter, "submit_failed", w.submitError.value, None)] + [];
      AcceptsCons(Dispatched, rest[0], []);
    } else {
      MirroredAccepted(w, w.stream);
      assert rest == [rest[0]] + Mirrored(w, w.stream);
      AcceptsCons(Dispatched, rest[0], Mirrored(w, w.stream));
    }
  }

  lemma LaunchAccepted(w: World, last: Mutation, rest: seq<Mutation>)
    requires Accepts(LaunchStarted, [last] + rest)
    ensures Accepts(New, Launch(w) + [last] + rest)
  {
    var a, b := Launch(w)[0], Launch(w)[1];
    assert Launch(w) + [last] + rest == [a] + ([b] + ([last] + rest));
    AcceptsCons(LaunchPending, b, [last] + rest);
    AcceptsCons(New, a, [b] + ([last] + rest));
  }

  lemma LaunchPartAccepted(w: World, rest: seq<Mutation>)
    requires if IsUp(w) then Accepts(RuntimeUp, rest) else rest == []
    ensures Accepts(New, LaunchPart(w) + rest)
  {
    hide Launch;
    var last := LaunchPart(w)[|LaunchPart(w)| - 1];
    AcceptsCons(New, last, rest);
    AcceptsCons(LaunchStarted, last, rest);
    if !w.healthy && w.launchIfDown {
      LaunchAccepted(w, last, rest);
      assert LaunchPart(w) == Launch(w) + [last];
    }
  }

  /** Whatever the adapter and the runtime do, what runTask appends is a life: launch, ready, dispatch,
      submission, adapter events. */
  lemma AttemptsAreALife(w: World)
    ensures Accepts(New, Attempts(w))
  {
    hide Submission, LaunchPart;
    SubmissionAccepted(w);
    LaunchPartAccepted(w, if IsUp(w) then Submission(w) else []);
  }

  /** In a life at most one event is terminal, and it is the last. */
  lemma {:induction false} LifeEndsOnce(stage: Stage, ms: seq<Mutation>)
    requires Accepts(stage, ms)
    ensures forall i :: 0 <= i < |ms| - 1 ==> !ms[i].event.state.IsTerminal()
    ensures stage == Ended ==> ms == []
    decreases ms
  {
    if ms != [] {
      LifeEndsOnce(Next(stage, ms[0]).value, ms[1..]);
      forall i | 0 <= i < |ms| - 1 ensures !ms[i].event.state.IsTerminal() {
        if i > 0 {
          assert ms[i] == ms[1..][i - 1];
        }
      }
    }
  }

  // ---- What ends up in the log ----

  /** The attempts whose transaction commits; the others are dropped without a trace. */
  function Kept(ms: seq<Mutation>, outcomes: seq<Outcome>): seq<Mutation>
    requires |ms| <= |outcomes|
    decreases |ms|
  {
    if ms == [] then []
    else
      var rest := Kept(ms[..|ms| - 1], outcomes);
      if outcomes[|ms| - 1].fault == NoFault then rest + [ms[|ms| - 1]] else rest
  }

  /** `added` are the events of `ms`, each under a number of its own. */
  predicate EventsOfDrafts(added: seq<TaskEvent>, ms: seq<Mutation>) {
    |added| == |ms| && forall i :: 0 <= i < |ms| ==> added[i] == ms[i].event.(seqNo := added[i].seqNo)
  }

  /** The log gained exactly the committed ones of the attempts `done`. */
  ghost predicate Logged(before: seq<TaskEvent>, events: seq<TaskEvent>, done: seq<Mutation>, outcomes: seq<Outcome>) {
    |done| <= |outcomes| && before <= events && EventsOfDrafts(events[|before|..], Kept(done, outcomes))
  }

  lemma KeptAppend(done: seq<Mutation>, m: Mutation, outcomes: seq<Outcome>)
    requires |done| < |outcomes|
    ensures Kept(done + [m], outcomes) == if outcomes[|done|].fault == NoFault then Kept(done, outcomes) + [m] else Kept(done, outcomes)
  {
    assert (done + [m])[..|done|] == done;
  }

  lemma LoggedAppend(before: seq<TaskEvent>, events: seq<TaskEvent>, done: seq<Mutation>, outcomes: seq<Outcome>, m: Mutation, gained: seq<TaskEvent>)
    requires Logged(before, events, done, outcomes) && |done| < |outcomes|
    requires |gained| == (if outcomes[|done|].fault == NoFault then 1 else 0)
    requires forall e :: e in gained ==> e == m.event.(seqNo := e.seqNo)
    ensures Logged(before, events + gained, done + [m], outcomes)
  {
    KeptAppend(done, m, outcomes);
    assert (events + gained)[|before|..] == events[|before|..] + gained;
    if gained != [] {
      assert gained[0] in gained;
    }
  }

  /** What is kept of a life is still a run of events with at most one terminal event, the last. */
  lemma {:induction false} KeptEndsOnce(ms: seq<Mutation>, outcomes: seq<Outcome>)
    requires |ms| <= |outcomes| && forall i :: 0 <= i < |ms| - 1 ==> !ms[i].event.state.IsTerminal()
    ensures var kept := Kept(ms, outcomes);
            && (forall i :: 0 <= i < |kept| - 1 ==> !kept[i].event.state.IsTerminal())
            && (kept != [] && kept[|kept| - 1].event.state.IsTerminal() ==> kept[|kept| - 1] == ms[|ms| - 1])
    decreases |ms|
  {
    if ms != [] {
      var front := ms[..|ms| - 1];
      KeptEndsOnce(front, outcomes);
      var kept := Kept(front, outcomes);
      if kept != [] && kept[|kept| - 1].event.state.IsTerminal() {
        assert front[|front| - 1] == ms[|ms| - 2];
      }
    }
  }

  /** Main result for one task whose only writer is runTask: whatever the adapter does and whichever
      appends fail, the log gains at most one terminal event, and nothing after it. */
  lemma LogEndsOnce(w: World, before: seq<TaskEvent>, events: seq<TaskEvent>, outcomes: seq<Outcome>)
    requires Logged(before, events, Attempts(w), outcomes)
    ensures forall i :: |before| <= i < |events| - 1 ==> !events[i].state.IsTerminal()
  {
    AttemptsAreALife(w);
    LifeEndsOnce(New, Attempts(w));
    KeptEndsOnce(Attempts(w), outcomes);
    var added, kept := events[|before|..], Kept(Attempts(w), outcomes);
    forall i | |before| <= i < |events| - 1 ensures !events[i].state.IsTerminal() {
      assert events[i] == added[i - |before|];
      assert added[i - |before|] == kept[i - |before|].event.(seqNo := added[i - |before|].seqNo);
    }
  }

  // ---- The adapter part against what the adapter's run sent ----

  lemma {:induction false} MirroredEvents(w: World, taken: seq<RunPipeline.Item>, n: nat)
    requires n <= |taken| && (forall i :: 0 <= i < n ==> taken[i].Adapter?) && (n < |taken| ==> !taken[n].Adapter?)
    requires forall i :: 0 <= i < n - 1 ==> !taken[i].event.state.IsTerminal()
    ensures |Mirrored(w, taken)| >= n
    ensures forall i :: 0 <= i < n ==> Mirrored(w, taken)[i] == AdapterDraft(w, taken[i].event)
    ensures |Mirrored(w, taken)| <= n + 1
    ensures |Mirrored(w, taken)| == n + 1 ==> Mirrored(w, taken)[n].event.kind == TaskFailed && Mirrored(w, taken)[n].event.message == "stream_failed"
    decreases n
  {
    hide AdapterDraft;
    if n > 0 {
      assert forall i :: 0 <= i < n - 1 ==> taken[1..][i] == taken[i + 1];
      assert n < |taken| ==> taken[1..][n - 1] == taken[n];
      if taken[0].event.state.IsTerminal() {
        assert n == 1;
      } else {
        MirroredEvents(w, taken[1..], n - 1);
      }
    }
  }

  function PlanOf(r: AcpRun.Run): RunPipeline.Plan {
    RunPipeline.Plan(r.events, if r.errs == [] then None else Some(r.errs[0]))
  }

  /** The runs of the ACP adapter meet the pipeline's only assumption. */
  lemma AcpPlanEndsOnce(setup: AcpRun.Setup, signals: seq<AcpRun.Signal>)
    ensures RunPipeline.TerminalOnlyLast(PlanOf(AcpRun.Consume(setup, AcpRun.Begun(setup), signals)).events)
  {
    AcpRun.EveryRunIsWellFormed(setup, signals);
    var r := AcpRun.Consume(setup, AcpRun.Begun(setup), signals);
    forall i | 0 <= i < |r.events| - 1 ensures !r.events[i].state.IsTerminal() {
      assert r.events[i] == r.events[..|r.events| - 1][i];
    }
  }

  /** Everything runTask takes before it stops is an adapter event; the rest is at most one last item. */
  lemma {:induction false} RecordedIsFront(taken: seq<RunPipeline.Item>)
    requires forall i :: 0 <= i < |taken| - 1 ==> taken[i].Adapter?
    ensures var n := |RunPipeline.Recorded(taken)|;
            && n <= |taken| <= n + 1 && (n < |taken| ==> !taken[n].Adapter?)
            && forall i :: 0 <= i < n ==> taken[i].Adapter? && RunPipeline.Recorded(taken)[i] == taken[i].event
  {
    if taken != [] {
      var front := taken[..|taken| - 1];
      assert forall i :: 0 <= i < |front| ==> front[i] == taken[i];
      RecordedIsFront(front);
      assert front == [] || front[|front| - 1].Adapter?;
    }
  }

  /** For every interleaving of an adapter's run, the forwarder and runTask: what is appended after the
      submission is, in order, the first events that the run sent, unchanged but for the task id, and then
      at most one stream failure. */
  lemma AdapterPartIsPrefix(w: World, plan: RunPipeline.Plan, acts: seq<RunPipeline.Action>)
    requires RunPipeline.TerminalOnlyLast(plan.events) && RunPipeline.Legal(plan, RunPipeline.Initial, acts)
    requires w.stream == RunPipeline.Exec(plan, RunPipeline.Initial, acts).taken
    ensures var n := |RunPipeline.Recorded(w.stream)|;
            && n <= |plan.events| && n <= |Mirrored(w, w.stream)| <= n + 1
            && (forall i :: 0 <= i < n ==> Mirrored(w, w.stream)[i] == AdapterDraft(w, plan.events[i]))
            && (|Mirrored(w, w.stream)| == n + 1 ==> Mirrored(w, w.stream)[n].event.message == "stream_failed")
  {
    hide AdapterDraft, Mirrored;
    RunPipeline.TakenIsPrefix(plan, acts);
    OnlyLastItemEnds(plan, RunPipeline.Initial, acts);
    RecordedIsFront(w.stream);
    MirroredEvents(w, w.stream, |RunPipeline.Recorded(w.stream)|);
  }

  lemma {:induction false} AllKept(ms: seq<Mutation>, outcomes: seq<Outcome>)
    requires |ms| <= |outcomes| && forall i :: 0 <= i < |ms| ==> outcomes[i].fault == NoFault
    ensures Kept(ms, outcomes) == ms
    decreases |ms|
  {
    if ms != [] {
      AllKept(ms[..|ms| - 1], outcomes);
    }
  }

  /** A task whose run was submitted. */
  predicate IsSubmitted(w: World) {
    w.resolves && w.adapterFound && IsUp(w) && w.submitError == None
  }

  lemma MirroredIsTail(w: World)
    requires IsSubmitted(w)
    ensures |Mirrored(w, w.stream)| <= |Attempts(w)|
    ensures Attempts(w)[|Attempts(w)| - |Mirrored(w, w.stream)|..] == Mirrored(w, w.stream)
  {
    hide LaunchPart, Mirrored;
    var tail := Mirrored(w, w.stream);
    var head := Attempts(w)[..|Attempts(w)| - |tail|];
    assert Attempts(w) == head + tail;
  }

  /** When its appends succeed, what the log of a submitted task gains after the submission is, in order,
      the first events that the adapter's run sent, each under a number of its own, and then at most one
      stream failure. */
  lemma LogGainsPrefix(w: World, plan: RunPipeline.Plan, acts: seq<RunPipeline.Action>,
                       before: seq<TaskEvent>, events: seq<TaskEvent>, outcomes: seq<Outcome>)
    requires RunPipeline.TerminalOnlyLast(plan.events) && RunPipeline.Legal(plan, RunPipeline.Initial, acts)
    requires w.stream == RunPipeline.Exec(plan, RunPipeline.Initial, acts).taken && IsSubmitted(w)
    requires Logged(before, events, Attempts(w), outcomes) && forall i :: 0 <= i < |outcomes| ==> outcomes[i].fault == NoFault
    ensures var n, start := |RunPipeline.Recorded(w.stream)|, |before| + |Attempts(w)| - |Mirrored(w, w.stream)|;
            && n <= |plan.events| && |before| <= start && start + n <= |events| <= start + n + 1
            && (forall i :: 0 <= i < n ==>
                  events[start + i] == AdapterDraft(w, plan.events[i]).event.(seqNo := events[start + i].seqNo))
            && (|events| == start + n + 1 ==> events[start + n].message == "stream_failed")
  {
    hide AdapterDraft, Mirrored, Attempts;
    AdapterPartIsPrefix(w, plan, acts);
    MirroredIsTail(w);
    AllKept(Attempts(w), outcomes);
    var ms, added := Attempts(w), events[|before|..];
    var d := |ms| - |Mirrored(w, w.stream)|;
    forall i | 0 <= i < |Mirrored(w, w.stream)|
      ensures events[|before| + d + i] == Mirrored(w, w.stream)[i].event.(seqNo := events[|before| + d + i].seqNo)
    {
      assert added[d + i] == ms[d + i].event.(seqNo := added[d + i].seqNo);
      assert ms[d..][i] == ms[d + i];
    }
  }

  ghost predicate ItemsInv(s: RunPipeline.State) {
    && (forall i :: 0 <= i < |s.taken| - 1 ==> s.taken[i].Adapter?)
    && (s.taken != [] && !s.taken[|s.taken| - 1].Adapter? ==> s.returned)
  }

  /** runTask returns with the first item that is not an event. */
  lemma {:induction false} OnlyLastItemEnds(plan: RunPipeline.Plan, s: RunPipeline.State, acts: seq<RunPipeline.Action>)
    requires RunPipeline.Legal(plan, s, acts) && ItemsInv(s)
    ensures ItemsInv(RunPipeline.Exec(plan, s, acts))
    decreases acts
  {
    if acts != [] {
      OnlyLastItemEnds(plan, RunPipeline.Do(plan, s, acts[0]), acts[1..]);
    }
  }

  // ---- The routine ----

  /** The tables after the attempts `done`, each with its outcome. */
  function Tables(db: Db, done: seq<Mutation>, outcomes: seq<Outcome>): Db
    requires |done| <= |outcomes|
    decreases |done|
  {
    if done == [] then db
    else
      var before, m := Tables(db, done[..|done| - 1], outcomes), done[|done| - 1];
      if outcomes[|done| - 1].fault == NoFault then Committed(before, Numbered(before, m)) else before
  }

  /** The log and the row are those of the attempts so far. */
  ghost predicate Reached(start: Db, db: Db, done: seq<Mutation>, outcomes: seq<Outcome>) {
    |done| <= |outcomes| && db == Tables(start, done, outcomes) && Logged(start.events, db.events, done, outcomes)
  }

  lemma ReachedNext(start: Db, db: Db, db': Db, done: seq<Mutation>, outcomes: seq<Outcome>, m: Mutation, gained: seq<TaskEvent>)
    requires Reached(start, db, done, outcomes) && |done| < |outcomes|
    requires |gained| == (if outcomes[|done|].fault == NoFault then 1 else 0)
    requires (forall e :: e in gained ==> e == m.event.(seqNo := e.seqNo)) && db'.events == db.events + gained
    requires db' == if outcomes[|done|].fault == NoFault then Committed(db, Numbered(db, m)) else db
    ensures Reached(start, db', done + [m], outcomes)
  {
    LoggedAppend(start.events, db.events, done, outcomes, m, gained);
    assert (done + [m])[..|done|] == done;
  }

  /** The task's row, after any attempts for it: the last one that committed decides status and error; an artifact
      it stored stays. */
  lemma {:induction false} RowFollows(start: Db, done: seq<Mutation>, outcomes: seq<Outcome>, t: string)
    requires |done| <= |outcomes| && t in start.tasks && forall m :: m in done ==> m.event.taskId == t
    ensures t in Tables(start, done, outcomes).tasks
    ensures var row, kept := Tables(start, done, outcomes).tasks[t], Kept(done, outcomes);
            && (kept == [] ==> row == start.tasks[t])
            && (kept != [] ==>
                  var last := kept[|kept| - 1];
                  && row.status == last.event.state && row.lastError == last.error
                  && (last.resultArtifact != "" ==> row.resultArtifact == Some(last.resultArtifact))
                  && (last.remote.Some? ==> row.binding == Some(last.remote.value.binding)))
    decreases |done|
  {
    if done != [] {
      var front, m := done[..|done| - 1], done[|done| - 1];
      assert m in done && forall x :: x in front ==> x in done;
      RowFollows(start, front, outcomes, t);
      CommittedMeans(Tables(start, front, outcomes), Numbered(Tables(start, front, outcomes), m));
    }
  }

  /** One append whose error is ignored. */
  method Append(core: Orchestrator, m: Mutation, outcomes: seq<Outcome>, ghost start: Db, done: seq<Mutation>)
    returns (now: seq<Mutation>)
    requires core.Valid() && Contiguous(core.store.events) && |done| < |outcomes|
    requires Reached(start, core.store.Contents(), done, outcomes)
    modifies core, core.store
    ensures core.Valid() && Contiguous(core.store.events)
    ensures now == done + [m] && Reached(start, core.store.Contents(), now, outcomes)
  {
    hide Reached, Contiguous, PublishedRight, Committed;
    ghost var was := core.store.Contents();
    ghost var gained;
    var ok;
    ok, gained := AppendDraft(core, m, outcomes[|done|]);
    ReachedNext(start, was, core.store.Contents(), done, outcomes, m, gained);
    now := done + [m];
  }

  lemma MirroredOne(now: seq<Mutation>, m: Mutation, rest: seq<Mutation>)
    ensures now + ([m] + rest) == now + [m] + rest && now + [m] + [] == now + [m]
  {
  }

  /** The select loop. */
  method MirrorRun(core: Orchestrator, w: World, outcomes: seq<Outcome>, ghost start: Db, done: seq<Mutation>)
    returns (now: seq<Mutation>)
    requires core.Valid() && Contiguous(core.store.events) && |done| + |w.stream| <= |outcomes|
    requires Reached(start, core.store.Contents(), done, outcomes)
    modifies core, core.store
    ensures core.Valid() && Contiguous(core.store.events)
    ensures now == done + Mirrored(w, w.stream) && Reached(start, core.store.Contents(), now, outcomes)
  {
    hide Reached, Contiguous, AdapterDraft, Failure;
    now := done;
    assert w.stream[0..] == w.stream;
    var i := 0;
    while i < |w.stream|
      invariant 0 <= i <= |w.stream| && |now| == |done| + i
      invariant core.Valid() && Contiguous(core.store.events) && Reached(start, core.store.Contents(), now, outcomes)
      invariant now + Mirrored(w, w.stream[i..]) == done + Mirrored(w, w.stream)
    {
      assert w.stream[i..][0] == w.stream[i] && w.stream[i..][1..] == w.stream[i + 1..] && now + [] == now;
      match w.stream[i] {
        case Adapter(event) =>
          MirroredOne(now, AdapterDraft(w, event), if event.state.IsTerminal() then [] else Mirrored(w, w.stream[i + 1..]));
          now := Append(core, AdapterDraft(w, event), outcomes, start, now);
          if event.state.IsTerminal() {
            return;
          }
        case StreamError(detail) =>
          now := Append(core, Failure(w, FromAdapter, "stream_failed", detail, Some(w.handle)), outcomes, start, now);
          return;
        case EventsClosed => return;
        case ErrsClosed => return;
      }
      i := i + 1;
    }
    assert w.stream[i..] == [] && now + [] == now;
  }

  /** From the dispatch on. */
  method Submit(core: Orchestrator, w: World, outcomes: seq<Outcome>, ghost start: Db, done: seq<Mutation>)
    returns (now: seq<Mutation>)
    requires core.Valid() && Contiguous(core.store.events) && |done| + 2 + |w.stream| <= |outcomes|
    requires Reached(start, core.store.Contents(), done, outcomes)
    modifies core, core.store
    ensures core.Valid() && Contiguous(core.store.events)
    ensures now == done + Submission(w) && Reached(start, core.store.Contents(), now, outcomes)
  {
    hide Reached, Contiguous, Mirrored, Failure;
    now := Append(core, Note(w, TaskDispatching, Dispatching, FromCore, "Dispatching task", map["target_agent_id" := JStr(w.target)]),
                  outcomes, start, done);
    if w.submitError.Some? {
      now := Append(core, Failure(w, FromAdapter, "submit_failed", w.submitError.value, None), outcomes, start, now);
      return;
    }
    var submitted := Note(w, TaskDispatching, Dispatching, FromAdapter, "Task submitted to runtime", map["binding" := JStr(w.handle.binding)]);
    now := Append(core, submitted.(remote := Some(w.handle)), outcomes, start, now);
    now := MirrorRun(core, w, outcomes, start, now);
  }

  /** Health check and launch. */
  method LaunchRuntime(core: Orchestrator, w: World, outcomes: seq<Outcome>, ghost start: Db)
    returns (now: seq<Mutation>)
    requires core.Valid() && Contiguous(core.store.events) && 3 <= |outcomes|
    requires Reached(start, core.store.Contents(), [], outcomes)
    modifies core, core.store
    ensures core.Valid() && Contiguous(core.store.events)
    ensures now == LaunchPart(w) && Reached(start, core.store.Contents(), now, outcomes)
  {
    hide Reached, Contiguous, Failure, Launched;
    now := [];
    if w.healthy {
      if w.ensureError.Some? {
        now := Append(core, Failure(w, FromRuntime, "ensure_ready_failed", w.ensureError.value, None), outcomes, start, now);
        return;
      }
    } else if w.launchIfDown {
      now := Append(core, Note(w, RuntimePendingLaunch, PendingLaunch, FromCore, "Runtime launch required", map[]), outcomes, start, now);
      now := Append(core, Note(w, RuntimeLaunching, Launching, FromRuntime, "Launching runtime", map[]), outcomes, start, now);
      if w.ensureError.Some? {
        now := Append(core, Failure(w, FromRuntime, "launch_failed", w.ensureError.value, None), outcomes, start, now);
        return;
      }
    } else {
      now := Append(core, Failure(w, FromRuntime, "runtime unavailable", "launch_if_down=false and runtime reported unhealthy", None),
                    outcomes, start, now);
      return;
    }
    now := Append(core, Launched(w), outcomes, start, now);
  }

  /** runTask, given how each of its appends goes. */
  method RunTask(core: Orchestrator, w: World, outcomes: seq<Outcome>) returns (attempts: seq<Mutation>)
    requires core.Valid() && Contiguous(core.store.events) && 5 + |w.stream| <= |outcomes|
    modifies core, core.store
    ensures core.Valid() && Contiguous(core.store.events)
    ensures attempts == Attempts(w) && Reached(old(core.store.Contents()), core.store.Contents(), attempts, outcomes)
  {
    ghost var start := core.store.Contents();
    assert Reached(start, core.store.Contents(), [], outcomes);
    LaunchIsShort(w);
    hide Reached, Contiguous, Submission, Failure, LaunchPart;
    if !w.resolves {
      return [];
    }
    if !w.adapterFound {
      attempts := Append(core, Failure(w, FromCore, "adapter missing", w.adapterName, None), outcomes, start, []);
      return;
    }
    attempts := LaunchRuntime(core, w, outcomes, start);
    if IsUp(w) {
      attempts := Submit(core, w, outcomes, start, attempts);
    }
  }

  lemma LaunchIsShort(w: World)
    ensures |LaunchPart(w)| <= 3
  {
  }
}
