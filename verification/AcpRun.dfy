/** One prompt of an ACP agent: the loop that turns notifications into task events and decides how the
    run ends, under a session lock. */
module AcpRun {
  import opened TaskTypes
  import opened TextRecovery
  import opened WorkerKeys
  import opened SessionLock

  datatype LocalKind = Progress | StateChange | Terminal

  /** What an adapter reports, before it becomes a task event. */
  datatype LocalEvent = LocalEvent(kind: LocalKind, state: TaskStatus, message: string, data: JsonMap)

  /** What is fixed for one run. `recovered` is what a replay of the session would give. */
  datatype Setup = Setup(
    taskId: string,
    scope: string,
    sessionId: string,
    dialect: Dialect,
    idleTimeout: int,
    startedAt: int,
    accepted: JsonMap,
    recovered: string)

  /** What the loop's select sees; times are in milliseconds. */
  datatype Signal =
    | ContextDone
    | PromptReturned(now: int, error: Option<string>)
    | Tick(now: int)
    | Notification(now: int, params: Option<JsonMap>)
    | SubscriptionClosed

  /** The loop's variables and the two channels it writes. `handled` counts the signals it took. */
  datatype Run = Run(
    events: seq<TaskEvent>,
    errs: seq<string>,
    finalText: string,
    sawStructured: bool,
    sawTerminal: bool,
    lastActivity: int,
    promptFinished: bool,
    drainUntil: int,
    exit: Exit,
    handled: nat)

  // ---- Events ----

  function EventKindOf(e: LocalEvent): EventKind {
    if e.kind == Terminal && e.state == Completed then TaskCompleted
    else if e.kind == Terminal && e.state == Failed then TaskFailed
    else if e.kind == Terminal && e.state == TaskStatus.Cancelled then TaskCancelled
    else if e.state == AwaitingInput then TaskAwaitingInput
    else TaskRunning
  }

  function ToTaskEvent(setup: Setup, e: LocalEvent): TaskEvent {
    TaskEvent(setup.taskId, 0, EventKindOf(e), e.state, FromAdapter, e.message, e.data)
  }

  function Name(dialect: Dialect): string {
    match dialect case OpenClaw => "openclaw" case Hermes => "hermes" case Goose => "goose"
  }

  function Title(dialect: Dialect): string {
    match dialect case OpenClaw => "OpenClaw" case Hermes => "Hermes" case Goose => "Goose"
  }

  function AcceptedEvent(setup: Setup): TaskEvent {
    ToTaskEvent(setup, LocalEvent(Progress, TaskStatus.Running, Title(setup.dialect) + " accepted the task", setup.accepted))
  }

  function CompletionEvent(setup: Setup, finalText: string): TaskEvent {
    ToTaskEvent(setup, LocalEvent(Terminal, Completed, Title(setup.dialect) + " completed the task",
                                  map["result" := JObj(map["text" := JStr(finalText)])]))
  }

  /** acpNotificationToRuntimeEvent. */
  function FromNotification(raw: JsonMap): LocalEvent {
    var kind := StringAt(raw, "kind");
    var data := ObjectAt(raw, "data");
    var (k, state) :=
      if kind == "task.awaiting_input" then (StateChange, AwaitingInput)
      else if kind == "task.completed" then (Terminal, Completed)
      else if kind == "task.failed" then (Terminal, Failed)
      else if kind == "task.cancelled" then (Terminal, TaskStatus.Cancelled)
      else (Progress, TaskStatus.Running);
    LocalEvent(k, state, StringAt(raw, "message"), if data == None then map[] else data.value)
  }

  /** The text of an assistant chunk; an empty text is no chunk. */
  function ChunkText(params: JsonMap): Option<string> {
    var update := ObjectAt(params, "update");
    if update == None || StringAt(update.value, "sessionUpdate") != "agent_message_chunk" then None
    else
      var content := ObjectAt(update.value, "content");
      if content == None || StringAt(content.value, "text") == "" then None
      else Some(StringAt(content.value, "text"))
  }

  predicate Matches(setup: Setup, params: Option<JsonMap>) {
    params.Some? && SessionOf(params.value) == setup.sessionId
  }

  /** The structured event in a notification; only OpenClaw sends them. */
  function StructuredEvent(setup: Setup, params: JsonMap): Option<LocalEvent> {
    if setup.dialect != OpenClaw || ChunkText(params).Some? || ObjectAt(params, "event") == None then None
    else Some(FromNotification(ObjectAt(params, "event").value))
  }

  // ---- Decisions at the end ----

  predicate ShouldRecover(setup: Setup, finalText: string, sawStructured: bool) {
    Trim(finalText) == "" && (setup.dialect == OpenClaw ==> sawStructured)
  }

  predicate ShouldComplete(setup: Setup, finalText: string, sawStructured: bool, sawTerminal: bool) {
    !sawTerminal && (setup.dialect == OpenClaw ==> !(sawStructured && Trim(finalText) == ""))
  }

  function FinalText(setup: Setup, r: Run): string {
    var finalText := Trim(r.finalText);
    if ShouldRecover(setup, finalText, r.sawStructured)
    then (if setup.sessionId == "" then "" else setup.recovered) else finalText
  }

  // ---- One pass of the loop ----

  function Begun(setup: Setup): Run {
    Run([AcceptedEvent(setup)], [], "", false, false, setup.startedAt, false, 0, Exit.Running, 0)
  }

  function OnPrompt(setup: Setup, r: Run, now: int, error: Option<string>): Run {
    if error.Some? then r.(errs := r.errs + [error.value], exit := PromptFailed)
    else r.(promptFinished := true, drainUntil := now + 500)
  }

  function OnTick(setup: Setup, r: Run, now: int): Run {
    if r.promptFinished && now > r.drainUntil then
      var text := FinalText(setup, r);
      r.(finalText := text, exit := Drained,
         events := if ShouldComplete(setup, text, r.sawStructured, r.sawTerminal)
                   then r.events + [CompletionEvent(setup, text)] else r.events)
    else if setup.idleTimeout > 0 && now - r.lastActivity > setup.idleTimeout then
      r.(errs := r.errs + [Name(setup.dialect) + " session idle timeout exceeded"], exit := IdleTimeout)
    else r
  }

  function OnNotification(setup: Setup, r: Run, now: int, params: Option<JsonMap>): Run {
    if !Matches(setup, params) then r
    else
      var r1 := r.(lastActivity := now, drainUntil := if r.promptFinished then now + 250 else r.drainUntil);
      var text := ChunkText(params.value);
      if text.Some? then r1.(finalText := r.finalText + text.value)
      else
        var e := StructuredEvent(setup, params.value);
        if e == None then r1
        else
          r1.(sawStructured := true,
              sawTerminal := r.sawTerminal || e.value.kind == Terminal || e.value.state.IsTerminal(),
              events := r.events + [ToTaskEvent(setup, e.value)],
              exit := if e.value.state.IsTerminal() then TerminalSeen else r.exit)
  }

  function Pass(setup: Setup, r: Run, s: Signal): Run {
    var r1 := match s
      case ContextDone => r.(exit := Exit.Cancelled)
      case PromptReturned(now, error) => OnPrompt(setup, r, now, error)
      case Tick(now) => OnTick(setup, r, now)
      case Notification(now, params) => OnNotification(setup, r, now, params)
      case SubscriptionClosed => r.(exit := SubscriptionLost);
    r1.(handled := r.handled + 1)
  }

  /** The loop, from the variables `r` on. */
  function Consume(setup: Setup, r: Run, signals: seq<Signal>): Run
    decreases signals
  {
    if r.exit != Exit.Running || signals == [] then r else Consume(setup, Pass(setup, r, signals[0]), signals[1..])
  }

  // ---- What every run keeps ----

  /** The text of all matching chunks, in arrival order. */
  function ChunksIn(setup: Setup, signals: seq<Signal>): string {
    if signals == [] then ""
    else
      var before := ChunksIn(setup, signals[..|signals| - 1]);
      var s := signals[|signals| - 1];
      if s.Notification? && Matches(setup, s.params) && ChunkText(s.params.value).Some?
      then before + ChunkText(s.params.value).value else before
  }

  /** Whether any matching notification carried a structured event. */
  predicate AnyStructured(setup: Setup, signals: seq<Signal>) {
    exists i :: 0 <= i < |signals| && signals[i].Notification? && Matches(setup, signals[i].params)
                && StructuredEvent(setup, signals[i].params.value).Some?
  }

  ghost predicate NoTerminal(events: seq<TaskEvent>) {
    forall i :: 0 <= i < |events| ==> !events[i].state.IsTerminal()
  }

  /** The shape of what has been written, by how the run stands. */
  ghost predicate Shape(setup: Setup, r: Run) {
    && r.events != [] && r.events[0] == AcceptedEvent(setup)
    && NoTerminal(r.events[..|r.events| - 1])
    && (r.sawTerminal ==> r.exit == TerminalSeen)
    && (r.errs == [] <==> !r.exit.PromptFailed? && !r.exit.IdleTimeout?) && |r.errs| <= 1
    && (!r.exit.TerminalSeen? && !r.exit.Drained? ==> NoTerminal(r.events))
    && (r.exit.TerminalSeen? ==> r.events[|r.events| - 1].state.IsTerminal())
  }

  /** What the variables say about the signals handled so far. */
  ghost predicate Tracks(setup: Setup, r: Run, seen: seq<Signal>) {
    && r.handled == |seen|
    && r.finalText == ChunksIn(setup, seen)
    && (r.sawStructured <==> AnyStructured(setup, seen))
  }

  lemma NotificationState(raw: JsonMap)
    ensures var e := FromNotification(raw); e.kind == Terminal <==> e.state.IsTerminal()
  {
  }

  lemma AppendedShape(setup: Setup, r: Run, e: TaskEvent, exit: Exit, sawTerminal: bool, r': Run)
    requires Shape(setup, r) && r.exit == Exit.Running && r'.events == r.events + [e] && r'.errs == r.errs
    requires r'.exit == exit && (exit.Drained? || exit.Running? || exit.TerminalSeen?)
    requires (exit.Running? ==> !e.state.IsTerminal()) && (exit.TerminalSeen? ==> e.state.IsTerminal())
    requires r'.sawTerminal ==> exit == TerminalSeen
    ensures Shape(setup, r')
  {
    assert r'.events[..|r'.events| - 1] == r.events;
  }

  lemma PassKeepsShape(setup: Setup, r: Run, s: Signal)
    requires Shape(setup, r) && r.exit == Exit.Running
    ensures Shape(setup, Pass(setup, r, s))
  {
    hide CompletionEvent, AcceptedEvent, FromNotification, ShouldComplete, FinalText, StructuredEvent, ToTaskEvent;
    var r' := Pass(setup, r, s);
    match s
    case Tick(now) =>
      CompletionIsTerminal(setup, FinalText(setup, r));
      if r'.events != r.events {
        AppendedShape(setup, r, r'.events[|r.events|], Drained, false, r');
      }
    case Notification(now, params) =>
      if Matches(setup, params) && StructuredEvent(setup, params.value).Some? {
        StructuredIs(setup, params.value);
        AppendedShape(setup, r, r'.events[|r.events|], r'.exit, r'.sawTerminal, r');
      }
    case _ =>
  }

  lemma CompletionIsTerminal(setup: Setup, text: string)
    ensures CompletionEvent(setup, text).state == Completed
  {
  }

  lemma StructuredIs(setup: Setup, params: JsonMap)
    requires StructuredEvent(setup, params).Some?
    ensures var e := StructuredEvent(setup, params).value;
            && ChunkText(params) == None && ToTaskEvent(setup, e).state == e.state
            && (e.kind == Terminal <==> e.state.IsTerminal())
  {
    NotificationState(ObjectAt(params, "event").value);
  }

  lemma AnyStructuredAppend(setup: Setup, seen: seq<Signal>, s: Signal)
    ensures AnyStructured(setup, seen + [s])
        <==> (AnyStructured(setup, seen)
              || (s.Notification? && Matches(setup, s.params) && StructuredEvent(setup, s.params.value).Some?))
  {
    hide Matches, StructuredEvent;
    var all := seen + [s];
    assert all[|seen|] == s;
    assert forall i :: 0 <= i < |seen| ==> all[i] == seen[i];
  }

  lemma PassTracks(setup: Setup, r: Run, seen: seq<Signal>, s: Signal)
    requires Tracks(setup, r, seen) && Pass(setup, r, s).exit != Drained
    ensures Tracks(setup, Pass(setup, r, s), seen + [s])
  {
    hide FinalText, AnyStructured, FromNotification, ChunkText, CompletionEvent, ShouldComplete, ToTaskEvent;
    AnyStructuredAppend(setup, seen, s);
    assert (seen + [s])[..|seen|] == seen;
  }

  /** What a run that drains should say: the trimmed text of all its chunks, or what a replay gives when
      that is blank and the dialect asks for a replay. */
  function WhatToSay(setup: Setup, seen: seq<Signal>): string {
    var text := Trim(ChunksIn(setup, seen));
    if text == "" && (setup.dialect == OpenClaw ==> AnyStructured(setup, seen))
    then (if setup.sessionId == "" then "" else setup.recovered) else text
  }

  /** OpenClaw keeps quiet when it has seen structured events and there is nothing to say. */
  predicate StaysSilent(setup: Setup, seen: seq<Signal>) {
    setup.dialect == OpenClaw && AnyStructured(setup, seen) && Trim(WhatToSay(setup, seen)) == ""
  }

  lemma TickTracks(setup: Setup, r: Run, seen: seq<Signal>, now: int)
    requires Shape(setup, r) && Tracks(setup, r, seen) && r.exit == Exit.Running && OnTick(setup, r, now).exit == Drained
    ensures var r' := OnTick(setup, r, now);
            r'.events == r.events + if StaysSilent(setup, seen) then [] else [CompletionEvent(setup, WhatToSay(setup, seen))]
  {
    hide CompletionEvent, AnyStructured, ChunksIn;
    TrimTwice(r.finalText);
    assert r.events + [] == r.events;
  }

  lemma TickIgnored(setup: Setup, seen: seq<Signal>, now: int)
    ensures WhatToSay(setup, seen + [Tick(now)]) == WhatToSay(setup, seen)
    ensures StaysSilent(setup, seen + [Tick(now)]) == StaysSilent(setup, seen)
  {
    hide AnyStructured;
    assert (seen + [Tick(now)])[..|seen|] == seen;
    AnyStructuredAppend(setup, seen, Tick(now));
  }

  /** How a run stands after the signals `seen`. */
  ghost predicate RunOutcome(setup: Setup, r: Run, seen: seq<Signal>) {
    && Shape(setup, r) && r.handled == |seen|
    && (r.exit == Exit.Running ==> Tracks(setup, r, seen))
    && (r.exit == Drained ==>
          if StaysSilent(setup, seen) then NoTerminal(r.events)
          else r.events[|r.events| - 1] == CompletionEvent(setup, WhatToSay(setup, seen)))
  }

  lemma PassOutcome(setup: Setup, r: Run, seen: seq<Signal>, s: Signal)
    requires RunOutcome(setup, r, seen) && r.exit == Exit.Running
    ensures RunOutcome(setup, Pass(setup, r, s), seen + [s])
  {
    hide Tracks, StaysSilent, WhatToSay, CompletionEvent, FinalText, FromNotification, AcceptedEvent;
    PassKeepsShape(setup, r, s);
    if Pass(setup, r, s).exit == Drained {
      TickTracks(setup, r, seen, s.now);
      TickIgnored(setup, seen, s.now);
      assert r.events + [] == r.events;
    } else {
      PassTracks(setup, r, seen, s);
    }
  }

  lemma {:induction false} ConsumeOutcome(setup: Setup, r: Run, seen: seq<Signal>, rest: seq<Signal>)
    requires RunOutcome(setup, r, seen)
    ensures var r' := Consume(setup, r, rest);
            |seen| <= r'.handled <= |seen| + |rest| && RunOutcome(setup, r', (seen + rest)[..r'.handled])
    ensures Consume(setup, r, rest).exit == Exit.Running ==> Consume(setup, r, rest).handled == |seen| + |rest|
    decreases rest
  {
    hide RunOutcome, Pass;
    assert (seen + rest)[..|seen|] == seen;
    if r.exit == Exit.Running && rest != [] {
      var s := rest[0];
      PassOutcome(setup, r, seen, s);
      assert seen + [s] + rest[1..] == seen + rest;
      ConsumeOutcome(setup, Pass(setup, r, s), seen + [s], rest[1..]);
    } else {
      HandledAll(setup, r, seen);
    }
  }

  lemma HandledAll(setup: Setup, r: Run, seen: seq<Signal>)
    requires RunOutcome(setup, r, seen)
    ensures r.handled == |seen|
  {
  }

  lemma BegunOutcome(setup: Setup)
    ensures RunOutcome(setup, Begun(setup), [])
  {
    assert [AcceptedEvent(setup)][..0] == [];
  }

  /** A run, for every sequence of notifications, ticks, prompt results and interruptions: its first event
      is the accepted event; at most one event is terminal, and that one is last; an error excludes a
      terminal event; while the loop goes on no terminal event has been seen; and a run that drains ends
      with the completion that says what it should, or silently. */
  lemma EveryRunIsWellFormed(setup: Setup, signals: seq<Signal>)
    ensures var r := Consume(setup, Begun(setup), signals);
            && r.handled <= |signals|
            && r.events != [] && r.events[0] == AcceptedEvent(setup)
            && NoTerminal(r.events[..|r.events| - 1])
            && (r.errs != [] ==> |r.errs| == 1 && NoTerminal(r.events))
            && (r.exit == Exit.Running ==> !r.sawTerminal && NoTerminal(r.events))
            && (r.exit == Drained && !StaysSilent(setup, signals[..r.handled]) ==>
                  r.events[|r.events| - 1] == CompletionEvent(setup, WhatToSay(setup, signals[..r.handled])))
  {
    hide StaysSilent, WhatToSay, CompletionEvent, AcceptedEvent, Consume, Tracks;
    BegunOutcome(setup);
    ConsumeOutcome(setup, Begun(setup), [], signals);
    assert [] + signals == signals;
  }

  /** A run that ends by itself tells its task how it ended, except in one case: after a clean prompt,
      OpenClaw with structured events and nothing to say leaves neither a terminal event nor an error, so
      the task stays in its last state. */
  lemma SilentEndExactly(setup: Setup, signals: seq<Signal>)
    ensures var r := Consume(setup, Begun(setup), signals);
            r.handled <= |signals| &&
            (Frees(r.exit) ==>
              ((NoTerminal(r.events) && r.errs == []) <==> (r.exit == Drained && StaysSilent(setup, signals[..r.handled]))))
  {
    hide StaysSilent, WhatToSay, AcceptedEvent, Consume, Tracks;
    BegunOutcome(setup);
    ConsumeOutcome(setup, Begun(setup), [], signals);
    assert [] + signals == signals;
  }

  // ---- When a run ends, read off its signals ----

  predicate IsMatch(setup: Setup, s: Signal) {
    s.Notification? && s.params.Some? && SessionOf(s.params.value) == setup.sessionId
  }

  predicate CleanReturn(s: Signal) {
    s.PromptReturned? && s.error == None
  }

  /** A notification of the session that comes after the prompt has returned. */
  predicate LateMatch(setup: Setup, seen: seq<Signal>, j: int) {
    0 <= j < |seen| && IsMatch(setup, seen[j]) && exists i :: 0 <= i < j && CleanReturn(seen[i])
  }

  /** The run may drain after `t`: 500 ms past the prompt's return, or 250 ms past the last notification of the
      session since. */
  ghost predicate DrainAt(setup: Setup, seen: seq<Signal>, t: int) {
    exists j :: && 0 <= j < |seen|
                && ((CleanReturn(seen[j]) && t == seen[j].now + 500) || (LateMatch(setup, seen, j) && t == seen[j].now + 250))
                && forall k :: j < k < |seen| ==> !CleanReturn(seen[k]) && !IsMatch(setup, seen[k])
  }

  /** The session was last heard of at `t`, its start included. */
  ghost predicate ActivityAt(setup: Setup, seen: seq<Signal>, t: int) {
    || (t == setup.startedAt && forall k :: 0 <= k < |seen| ==> !IsMatch(setup, seen[k]))
    || exists j :: 0 <= j < |seen| && IsMatch(setup, seen[j]) && t == seen[j].now
                   && forall k :: j < k < |seen| ==> !IsMatch(setup, seen[k])
  }

  /** The tick at `now` is late enough to drain. */
  ghost predicate DrainsAt(setup: Setup, seen: seq<Signal>, now: int) {
    exists t :: DrainAt(setup, seen, t) && now > t
  }

  /** The tick at `now` finds the session idle for too long. */
  ghost predicate IdlesAt(setup: Setup, seen: seq<Signal>, now: int) {
    setup.idleTimeout > 0 && exists t :: ActivityAt(setup, seen, t) && now - t > setup.idleTimeout
  }

  /** How signal `s`, after `seen`, makes the run stand. */
  ghost predicate EndsAs(setup: Setup, seen: seq<Signal>, s: Signal, exit: Exit) {
    match s
    case ContextDone => exit == Exit.Cancelled
    case SubscriptionClosed => exit == SubscriptionLost
    case PromptReturned(_, error) => exit == if error.Some? then PromptFailed else Exit.Running
    case Tick(now) =>
      exit == if DrainsAt(setup, seen, now) then Drained else if IdlesAt(setup, seen, now) then IdleTimeout else Exit.Running
    case Notification(_, params) =>
      exit == if IsMatch(setup, s) && StructuredEvent(setup, params.value).Some? && StructuredEvent(setup, params.value).value.state.IsTerminal()
              then TerminalSeen else Exit.Running
  }

  /** What the loop's clock variables say about the signals so far. */
  ghost predicate Clocked(setup: Setup, r: Run, seen: seq<Signal>) {
    && (r.promptFinished <==> exists i :: 0 <= i < |seen| && CleanReturn(seen[i]))
    && (r.promptFinished ==> DrainAt(setup, seen, r.drainUntil))
    && ActivityAt(setup, seen, r.lastActivity)
  }

  lemma DrainIsUnique(setup: Setup, seen: seq<Signal>, t: int, u: int)
    requires DrainAt(setup, seen, t) && DrainAt(setup, seen, u)
    ensures t == u
  {
    var j :| && 0 <= j < |seen|
             && ((CleanReturn(seen[j]) && t == seen[j].now + 500) || (LateMatch(setup, seen, j) && t == seen[j].now + 250))
             && forall k :: j < k < |seen| ==> !CleanReturn(seen[k]) && !IsMatch(setup, seen[k]);
    var i :| && 0 <= i < |seen|
             && ((CleanReturn(seen[i]) && u == seen[i].now + 500) || (LateMatch(setup, seen, i) && u == seen[i].now + 250))
             && forall k :: i < k < |seen| ==> !CleanReturn(seen[k]) && !IsMatch(setup, seen[k]);
    assert i == j;
  }

  lemma ActivityIsUnique(setup: Setup, seen: seq<Signal>, t: int, u: int)
    requires ActivityAt(setup, seen, t) && ActivityAt(setup, seen, u)
    ensures t == u
  {
  }

  lemma DrainNeedsReturn(setup: Setup, seen: seq<Signal>, t: int)
    requires DrainAt(setup, seen, t)
    ensures exists i :: 0 <= i < |seen| && CleanReturn(seen[i])
  {
  }

  /** A signal that is neither a return nor a notification of the session moves no clock. */
  lemma OtherSignalKeeps(setup: Setup, seen: seq<Signal>, s: Signal)
    requires !CleanReturn(s) && !IsMatch(setup, s)
    ensures forall t :: DrainAt(setup, seen, t) ==> DrainAt(setup, seen + [s], t)
  {
    var all := seen + [s];
    forall t | DrainAt(setup, seen, t) ensures DrainAt(setup, all, t) {
      var j :| && 0 <= j < |seen|
               && ((CleanReturn(seen[j]) && t == seen[j].now + 500) || (LateMatch(setup, seen, j) && t == seen[j].now + 250))
               && forall k :: j < k < |seen| ==> !CleanReturn(seen[k]) && !IsMatch(setup, seen[k]);
      assert all[j] == seen[j] && (LateMatch(setup, seen, j) ==> LateMatch(setup, all, j)) by { LateMatchStays(setup, seen, s, j); }
    }
  }

  lemma LateMatchStays(setup: Setup, seen: seq<Signal>, s: Signal, j: int)
    ensures LateMatch(setup, seen, j) ==> LateMatch(setup, seen + [s], j)
  {
    if LateMatch(setup, seen, j) {
      var i :| 0 <= i < j && CleanReturn(seen[i]);
      assert (seen + [s])[i] == seen[i] && (seen + [s])[j] == seen[j];
    }
  }

  lemma ReturnedStays(seen: seq<Signal>, s: Signal)
    ensures (exists i :: 0 <= i < |seen + [s]| && CleanReturn((seen + [s])[i]))
       <==> (exists i :: 0 <= i < |seen| && CleanReturn(seen[i])) || CleanReturn(s)
  {
    var all := seen + [s];
    assert all[|seen|] == s;
    assert forall i :: 0 <= i < |seen| ==> all[i] == seen[i];
  }

  lemma NewDrain(setup: Setup, seen: seq<Signal>, s: Signal)
    ensures CleanReturn(s) ==> DrainAt(setup, seen + [s], s.now + 500)
    ensures IsMatch(setup, s) && (exists i :: 0 <= i < |seen| && CleanReturn(seen[i])) ==> DrainAt(setup, seen + [s], s.now + 250)
    ensures IsMatch(setup, s) ==> ActivityAt(setup, seen + [s], s.now)
  {
    var all := seen + [s];
    assert all[|seen|] == s;
    if i :| 0 <= i < |seen| && CleanReturn(seen[i]) {
      assert all[i] == seen[i];
      assert IsMatch(setup, s) ==> LateMatch(setup, all, |seen|);
    }
  }

  lemma ReturnKeepsActivity(setup: Setup, seen: seq<Signal>, s: Signal, t: int)
    requires !IsMatch(setup, s) && ActivityAt(setup, seen, t)
    ensures ActivityAt(setup, seen + [s], t)
  {
    var all := seen + [s];
    assert forall i :: 0 <= i < |seen| ==> all[i] == seen[i];
  }

  lemma PassClocks(setup: Setup, r: Run, s: Signal)
    ensures var r' := Pass(setup, r, s);
            && r'.promptFinished == (r.promptFinished || CleanReturn(s))
            && r'.drainUntil == (if CleanReturn(s) then s.now + 500
                                 else if IsMatch(setup, s) && r.promptFinished then s.now + 250 else r.drainUntil)
            && r'.lastActivity == (if IsMatch(setup, s) then s.now else r.lastActivity)
  {
    hide FinalText, CompletionEvent, ToTaskEvent, ShouldComplete, ChunkText, StructuredEvent;
  }

  lemma PassClocked(setup: Setup, r: Run, seen: seq<Signal>, s: Signal)
    requires Clocked(setup, r, seen) && r.exit == Exit.Running
    ensures EndsAs(setup, seen, s, Pass(setup, r, s).exit)
    ensures Clocked(setup, Pass(setup, r, s), seen + [s])
  {
    PassExit(setup, r, seen, s);
    PassClocks(setup, r, s);
    hide EndsAs, Pass, DrainAt, ActivityAt;
    ReturnedStays(seen, s);
    NewDrain(setup, seen, s);
    if !CleanReturn(s) && !IsMatch(setup, s) {
      OtherSignalKeeps(setup, seen, s);
    }
    if !IsMatch(setup, s) {
      ReturnKeepsActivity(setup, seen, s, r.lastActivity);
    }
  }

  lemma PassExit(setup: Setup, r: Run, seen: seq<Signal>, s: Signal)
    requires Clocked(setup, r, seen) && r.exit == Exit.Running
    ensures EndsAs(setup, seen, s, Pass(setup, r, s).exit)
  {
    hide FinalText, CompletionEvent, ToTaskEvent, ShouldComplete, DrainAt, ActivityAt;
    if s.Tick? {
      forall t | DrainAt(setup, seen, t) ensures r.promptFinished && t == r.drainUntil {
        DrainNeedsReturn(setup, seen, t);
        DrainIsUnique(setup, seen, t, r.drainUntil);
      }
      forall t | ActivityAt(setup, seen, t) ensures t == r.lastActivity {
        ActivityIsUnique(setup, seen, t, r.lastActivity);
      }
    } else if s.Notification? && IsMatch(setup, s) {
      ChunksAreNotStructured(setup, s.params.value);
    }
  }

  lemma ChunksAreNotStructured(setup: Setup, params: JsonMap)
    ensures StructuredEvent(setup, params).Some? ==> ChunkText(params) == None
  {
  }

  lemma {:induction false} ConsumeEnds(setup: Setup, r: Run, seen: seq<Signal>, rest: seq<Signal>)
    requires Clocked(setup, r, seen) && r.exit == Exit.Running && r.handled == |seen|
    ensures var r', all := Consume(setup, r, rest), seen + rest;
            && |seen| <= r'.handled <= |all|
            && (forall i :: |seen| <= i < r'.handled - 1 ==> EndsAs(setup, all[..i], all[i], Exit.Running))
            && (r'.handled > |seen| ==> EndsAs(setup, all[..r'.handled - 1], all[r'.handled - 1], r'.exit))
            && (r'.exit == Exit.Running ==> r'.handled == |all|)
            && (r'.handled == |seen| ==> r' == r)
    decreases rest
  {
    hide EndsAs, Clocked, Pass;
    if rest != [] {
      var s := rest[0];
      var next := Pass(setup, r, s);
      var all := seen + rest;
      PassClocked(setup, r, seen, s);
      PassCounts(setup, r, s);
      assert all[..|seen|] == seen && all[|seen|] == s && all == (seen + [s]) + rest[1..];
      if next.exit == Exit.Running {
        ConsumeEnds(setup, next, seen + [s], rest[1..]);
      } else {
        assert Consume(setup, r, rest) == next;
      }
    }
  }

  lemma PassCounts(setup: Setup, r: Run, s: Signal)
    ensures Pass(setup, r, s).handled == r.handled + 1
  {
    hide FinalText, CompletionEvent, ToTaskEvent, ShouldComplete, ChunkText, StructuredEvent;
  }

  lemma {:induction false} ErrorSaid(setup: Setup, r: Run, rest: seq<Signal>)
    requires r.exit == Exit.Running && r.errs == []
    ensures var r' := Consume(setup, r, rest);
            && r.handled <= r'.handled <= r.handled + |rest|
            && (r'.exit == PromptFailed ==>
                  && r'.handled > r.handled && rest[r'.handled - r.handled - 1].PromptReturned?
                  && rest[r'.handled - r.handled - 1].error.Some? && r'.errs == [rest[r'.handled - r.handled - 1].error.value])
            && (r'.exit == IdleTimeout ==> r'.errs == [Name(setup.dialect) + " session idle timeout exceeded"])
            && (r'.exit != PromptFailed && r'.exit != IdleTimeout ==> r'.errs == [])
    decreases rest
  {
    hide FinalText, CompletionEvent, StructuredEvent, ShouldComplete, ToTaskEvent, ChunkText, Matches;
    if rest != [] {
      var next := Pass(setup, r, rest[0]);
      if next.exit == Exit.Running {
        ErrorSaid(setup, next, rest[1..]);
        var r' := Consume(setup, next, rest[1..]);
        assert r'.handled > next.handled ==> rest[1..][r'.handled - next.handled - 1] == rest[r'.handled - r.handled - 1];
      }
    }
  }

  /** When and how a run ends, for every list of signals: no signal before the last one handled ends it, that one
      ends it as said, by the clock of its signals, and a run that still goes on has handled them all. */
  lemma RunEndsExactly(setup: Setup, signals: seq<Signal>)
    ensures var r := Consume(setup, Begun(setup), signals);
            && r.handled <= |signals|
            && (forall i :: 0 <= i < r.handled - 1 ==> EndsAs(setup, signals[..i], signals[i], Exit.Running))
            && (r.handled > 0 ==> EndsAs(setup, signals[..r.handled - 1], signals[r.handled - 1], r.exit))
            && (r.exit == Exit.Running ==> r.handled == |signals|)
            && (r.exit == PromptFailed ==> r.handled > 0 && signals[r.handled - 1].PromptReturned? && signals[r.handled - 1].error.Some?
                                           && r.errs == [signals[r.handled - 1].error.value])
            && (r.exit == IdleTimeout ==> r.errs == [Name(setup.dialect) + " session idle timeout exceeded"])
            && (r.exit != PromptFailed && r.exit != IdleTimeout ==> r.errs == [])
  {
    BegunClocked(setup);
    hide EndsAs, Pass, Consume, Clocked;
    ErrorSaid(setup, Begun(setup), signals);
    ConsumeEnds(setup, Begun(setup), [], signals);
    assert [] + signals == signals;
  }

  lemma BegunClocked(setup: Setup)
    ensures Clocked(setup, Begun(setup), [])
  {
  }

  // ---- What a run writes, read off its signals ----

  /** Signal `i` carries a structured event of the session. */
  predicate IsReport(setup: Setup, signals: seq<Signal>, i: int) {
    0 <= i < |signals| && IsMatch(setup, signals[i]) && StructuredEvent(setup, signals[i].params.value).Some?
  }

  /** `at` lists, in order, the signals that carry structured events. */
  ghost predicate Reports(setup: Setup, signals: seq<Signal>, at: seq<nat>) {
    && (forall i, j :: 0 <= i < j < |at| ==> at[i] < at[j])
    && (forall i :: IsReport(setup, signals, i) <==> i in at)
  }

  function ReportOf(setup: Setup, signals: seq<Signal>, i: int): TaskEvent
    requires IsReport(setup, signals, i)
  {
    ToTaskEvent(setup, StructuredEvent(setup, signals[i].params.value).value)
  }

  /** The accepted event, the structured events in order, and then `last`. */
  ghost predicate Wrote(setup: Setup, seen: seq<Signal>, at: seq<nat>, events: seq<TaskEvent>, last: seq<TaskEvent>) {
    && Reports(setup, seen, at) && |events| == 1 + |at| + |last|
    && events[0] == AcceptedEvent(setup) && events[1 + |at|..] == last
    && forall k :: 0 <= k < |at| ==> IsReport(setup, seen, at[k]) && events[1 + k] == ReportOf(setup, seen, at[k])
  }

  /** What a run says when it stands like this after `seen`: the completion if it drained and is not to stay
      silent. */
  function LastWords(setup: Setup, seen: seq<Signal>, exit: Exit): seq<TaskEvent> {
    if exit == Drained && !StaysSilent(setup, seen) then [CompletionEvent(setup, WhatToSay(setup, seen))] else []
  }

  lemma PassWrites(setup: Setup, r: Run, seen: seq<Signal>, s: Signal)
    requires RunOutcome(setup, r, seen) && r.exit == Exit.Running
    ensures var r' := Pass(setup, r, s);
            && (IsReport(setup, [s], 0) ==> r'.events == r.events + [ReportOf(setup, [s], 0)] && r'.exit != Drained)
            && (!IsReport(setup, [s], 0) ==> r'.events == r.events + LastWords(setup, seen + [s], r'.exit))
  {
    if s.Tick? && OnTick(setup, r, s.now).exit == Drained {
      TickTracks(setup, r, seen, s.now);
      TickIgnored(setup, seen, s.now);
    } else {
      QuietPass(setup, r, s);
      assert r.events + [] == r.events;
    }
  }

  lemma QuietPass(setup: Setup, r: Run, s: Signal)
    requires r.exit == Exit.Running && !(s.Tick? && OnTick(setup, r, s.now).exit == Drained)
    ensures Pass(setup, r, s).exit != Drained
    ensures Pass(setup, r, s).events == r.events + if IsReport(setup, [s], 0) then [ReportOf(setup, [s], 0)] else []
  {
    hide FinalText, CompletionEvent, ToTaskEvent, ShouldComplete, ChunkText, AcceptedEvent;
    assert r.events + [] == r.events;
    if s.Notification? && IsMatch(setup, s) {
      ChunksAreNotStructured(setup, s.params.value);
    }
  }

  lemma WroteNext(setup: Setup, seen: seq<Signal>, at: seq<nat>, events: seq<TaskEvent>, s: Signal)
    requires Wrote(setup, seen, at, events, [])
    ensures !IsReport(setup, [s], 0) ==> forall last :: Wrote(setup, seen + [s], at, events + last, last)
    ensures IsReport(setup, [s], 0) ==> Wrote(setup, seen + [s], at + [|seen|], events + [ReportOf(setup, [s], 0)], [])
  {
    hide StructuredEvent, ToTaskEvent, AcceptedEvent;
    var all := seen + [s];
    assert all[|seen|] == s;
    assert forall i :: 0 <= i < |seen| ==> all[i] == seen[i];
    forall i ensures IsReport(setup, all, i) <==> IsReport(setup, seen, i) || (i == |seen| && IsReport(setup, [s], 0)) {
    }
    forall i | 0 <= i < |at| ensures at[i] < |seen| && IsReport(setup, all, at[i]) && ReportOf(setup, all, at[i]) == ReportOf(setup, seen, at[i]) {
      assert IsReport(setup, seen, at[i]);
    }
    forall last: seq<TaskEvent> ensures (events + last)[1 + |at|..] == last {
      assert events[1 + |at|..] == [];
    }
  }

  lemma {:induction false} ConsumeWrites(setup: Setup, r: Run, seen: seq<Signal>, at: seq<nat>, rest: seq<Signal>)
    returns (at': seq<nat>)
    requires Wrote(setup, seen, at, r.events, []) && r.exit == Exit.Running && RunOutcome(setup, r, seen)
    ensures var r', all := Consume(setup, r, rest), seen + rest;
            && |seen| <= r'.handled <= |all|
            && Wrote(setup, all[..r'.handled], at', r'.events, LastWords(setup, all[..r'.handled], r'.exit))
    decreases rest
  {
    hide Pass, Wrote, IsReport, ReportOf, RunOutcome, StaysSilent;
    HandledAll(setup, r, seen);
    var all := seen + rest;
    at' := at;
    assert all[..|seen|] == seen;
    if rest != [] {
      var s := rest[0];
      var next := Pass(setup, r, s);
      PassWrites(setup, r, seen, s);
      PassOutcome(setup, r, seen, s);
      PassCounts(setup, r, s);
      WroteNext(setup, seen, at, r.events, s);
      assert all == (seen + [s]) + rest[1..] && all[..|seen| + 1] == seen + [s];
      at' := if IsReport(setup, [s], 0) then at + [|seen|] else at;
      if next.exit == Exit.Running {
        at' := ConsumeWrites(setup, next, seen + [s], at', rest[1..]);
      } else {
        assert Consume(setup, r, rest) == next;
      }
    }
  }

  /** Everything a run writes, for every list of signals: first the accepted event, then one event for each
      structured notification of the session among the signals it handled, in their order, and at the end,
      of a run that drained and does not stay silent, the completion. */
  lemma RunWritesExactly(setup: Setup, signals: seq<Signal>) returns (at: seq<nat>)
    ensures var r := Consume(setup, Begun(setup), signals);
            && r.handled <= |signals|
            && Wrote(setup, signals[..r.handled], at, r.events,
                     if r.exit == Drained && !StaysSilent(setup, signals[..r.handled])
                     then [CompletionEvent(setup, WhatToSay(setup, signals[..r.handled]))] else [])
  {
    hide Pass, Wrote, RunOutcome, IsReport, StaysSilent, WhatToSay, CompletionEvent, AcceptedEvent;
    BegunOutcome(setup);
    NothingReported(setup);
    at := ConsumeWrites(setup, Begun(setup), [], [], signals);
    assert [] + signals == signals;
  }

  lemma NothingReported(setup: Setup)
    ensures Wrote(setup, [], [], [AcceptedEvent(setup)], [])
  {
  }

  // ---- What its events say ----

  lemma CompletionSays(setup: Setup, text: string)
    ensures var e := CompletionEvent(setup, text);
            && e.taskId == setup.taskId && e.kind == TaskCompleted && e.state == Completed && e.source == FromAdapter
            && "result" in e.data && e.data["result"] == JObj(map["text" := JStr(text)])
  {
  }

  lemma AcceptanceSays(setup: Setup)
    ensures var e := AcceptedEvent(setup);
            e.taskId == setup.taskId && e.kind == TaskRunning && e.state == TaskStatus.Running && e.source == FromAdapter && e.data == setup.accepted
  {
  }

  /** The text under update.content.text of an assistant chunk. */
  predicate HasChunk(params: JsonMap, text: string) {
    && text != "" && "update" in params && params["update"].JObj?
    && var update := params["update"].fields;
       && "sessionUpdate" in update && update["sessionUpdate"] == JStr("agent_message_chunk")
       && "content" in update && update["content"].JObj?
       && "text" in update["content"].fields && update["content"].fields["text"] == JStr(text)
  }

  /** A notification is a chunk exactly when it has such a text, and a report exactly when it is none, the agent
      is OpenClaw and there is an event object; the report's task event follows the object's kind, message
      and data. */
  lemma NotificationSays(setup: Setup, params: JsonMap)
    ensures forall text :: ChunkText(params) == Some(text) <==> HasChunk(params, text)
    ensures StructuredEvent(setup, params).Some?
       <==> setup.dialect == OpenClaw && (forall text :: !HasChunk(params, text)) && "event" in params && params["event"].JObj?
    ensures StructuredEvent(setup, params).Some? ==>
              var raw, e := params["event"].fields, ToTaskEvent(setup, StructuredEvent(setup, params).value);
              var kind := StringAt(raw, "kind");
              && e.taskId == setup.taskId && e.source == FromAdapter && e.message == StringAt(raw, "message")
              && ("data" in raw && raw["data"].JObj? ==> e.data == raw["data"].fields)
              && (kind == "task.awaiting_input" ==> e.kind == TaskAwaitingInput && e.state == AwaitingInput)
              && (kind == "task.completed" ==> e.kind == TaskCompleted && e.state == Completed)
              && (kind == "task.failed" ==> e.kind == TaskFailed && e.state == Failed)
              && (kind == "task.cancelled" ==> e.kind == TaskCancelled && e.state == TaskStatus.Cancelled)
              && (kind !in {"task.awaiting_input", "task.completed", "task.failed", "task.cancelled"} ==>
                    e.kind == TaskRunning && e.state == TaskStatus.Running)
  {
    ChunkTextSays(params);
    hide HasChunk, ChunkText;
    if ChunkText(params).Some? {
      assert HasChunk(params, ChunkText(params).value);
    }
  }

  lemma ChunkTextSays(params: JsonMap)
    ensures forall text :: ChunkText(params) == Some(text) <==> HasChunk(params, text)
  {
  }

  /** What a drained run says. Any text of its chunks that is not blank is said, trimmed. With none, a replay of the
      session is said, but OpenClaw asks for one only after structured events; and OpenClaw says nothing at
      all when it had such events and even the replay is blank. */
  lemma LastWordsSay(setup: Setup, seen: seq<Signal>)
    ensures var text, words := Trim(ChunksIn(setup, seen)), LastWords(setup, seen, Drained);
            var reported := exists i :: IsReport(setup, seen, i);
            && (text != "" ==> words == [CompletionEvent(setup, text)])
            && (text == "" && setup.dialect == OpenClaw && !reported ==> words == [CompletionEvent(setup, "")])
            && (text == "" && setup.dialect != OpenClaw && setup.sessionId != "" ==> words == [CompletionEvent(setup, setup.recovered)])
            && (text == "" && setup.dialect != OpenClaw && setup.sessionId == "" ==> words == [CompletionEvent(setup, "")])
            && (text == "" && setup.dialect == OpenClaw && reported ==>
                  words == if setup.sessionId == "" || Trim(setup.recovered) == "" then [] else [CompletionEvent(setup, setup.recovered)])
  {
    TrimTwice(ChunksIn(setup, seen));
    hide CompletionEvent, ChunksIn, StructuredEvent;
    assert AnyStructured(setup, seen) <==> exists i :: IsReport(setup, seen, i) by {
      if AnyStructured(setup, seen) {
        var i :| 0 <= i < |seen| && seen[i].Notification? && Matches(setup, seen[i].params) && StructuredEvent(setup, seen[i].params.value).Some?;
        assert IsReport(setup, seen, i);
      }
      if i :| IsReport(setup, seen, i) {
        assert seen[i].Notification? && Matches(setup, seen[i].params) && StructuredEvent(setup, seen[i].params.value).Some?;
      }
    }
    hide AnyStructured;
    BlankTrim();
  }

  lemma BlankTrim()
    ensures Trim("") == ""
  {
  }

  /** The text of a run's chunks is put together in the order of its signals. */
  lemma {:induction false} ChunksJoin(setup: Setup, a: seq<Signal>, b: seq<Signal>)
    ensures ChunksIn(setup, a + b) == ChunksIn(setup, a) + ChunksIn(setup, b)
  {
    hide Matches, ChunkText;
    if b == [] {
      assert a + b == a;
    } else {
      var front := b[..|b| - 1];
      ChunksJoin(setup, a, front);
      assert (a + b)[..|a + b| - 1] == a + front;
    }
  }

  lemma ChunkOfOne(setup: Setup, s: Signal, text: string)
    ensures IsMatch(setup, s) && HasChunk(s.params.value, text) ==> ChunksIn(setup, [s]) == text
    ensures !IsMatch(setup, s) || (forall t :: !HasChunk(s.params.value, t)) ==> ChunksIn(setup, [s]) == ""
  {
    hide HasChunk, ChunkText;
    if IsMatch(setup, s) {
      ChunkTextSays(s.params.value);
      if ChunkText(s.params.value).Some? {
        assert HasChunk(s.params.value, ChunkText(s.params.value).value);
      }
    }
    assert [s][..0] == [];
  }

  // ---- The session lock ----

  /** The caller's context ends, or the worker's subscription is closed. */
  predicate Interrupts(s: Signal) {
    s.ContextDone? || s.SubscriptionClosed?
  }

  /** Every way out of the loop gives the session back, except a cancelled context and a closed subscription. */
  lemma LeavesWithoutReleaseExactly(setup: Setup, signals: seq<Signal>)
    ensures var r := Consume(setup, Begun(setup), signals);
            && r.handled <= |signals|
            && (r.exit != Exit.Running && !Frees(r.exit)
                <==> r.handled > 0 && Interrupts(signals[r.handled - 1]))
  {
    LastSignalDecides(setup, Begun(setup), signals);
  }

  lemma {:induction false} LastSignalDecides(setup: Setup, r: Run, signals: seq<Signal>)
    requires r.exit == Exit.Running
    ensures var r' := Consume(setup, r, signals);
            && r.handled <= r'.handled <= r.handled + |signals|
            && (r'.exit != Exit.Running && !Frees(r'.exit)
                <==> r'.handled > r.handled && Interrupts(signals[r'.handled - r.handled - 1]))
    decreases signals
  {
    hide FinalText, CompletionEvent, StructuredEvent, ShouldComplete, ToTaskEvent, ChunkText, Matches;
    if signals != [] {
      var next := Pass(setup, r, signals[0]);
      if next.exit == Exit.Running {
        LastSignalDecides(setup, next, signals[1..]);
        var r' := Consume(setup, next, signals[1..]);
        assert r'.handled > next.handled ==> signals[1..][r'.handled - next.handled - 1] == signals[r'.handled - r.handled - 1];
      }
    }
  }

  /** The steps of a submission that can fail once the lock is taken. */
  datatype SubmitFailure = NoFailure | InitializeFails | SessionFails | PersistFails | StreamFails

  class AcpAdapter {
    const sessions: SessionCoordinator
    var runs: set<string>

    constructor (sessions: SessionCoordinator)
      ensures this.sessions == sessions && runs == {}
    {
      this.sessions, this.runs := sessions, {};
    }

    /** A busy scope rejects the submission; a step that fails later gives the lock back; a submission that
        works holds the lock and has registered its run. */
    method SubmitPrompt(scope: string, taskId: string, failure: SubmitFailure) returns (ok: bool)
      modifies this, sessions
      ensures var acquired := Acquired(old(sessions.active), scope, taskId);
              var held := Holds(acquired, scope, taskId);
              && ok == (held && failure == NoFailure)
              && sessions.active == (if held && !ok then Released(acquired, scope, taskId) else acquired)
              && runs == (if ok then old(runs) + {taskId}
                          else if held && failure == StreamFails then old(runs) - {taskId} else old(runs))
    {
      ok := sessions.TryAcquire(scope, taskId);
      if !ok {
        return;
      }
      if failure == InitializeFails || failure == SessionFails || failure == PersistFails {
        sessions.Release(scope, taskId);
        return false;
      }
      runs := runs + {taskId};
      if failure == StreamFails {
        sessions.Release(scope, taskId);
        runs := runs - {taskId};
        return false;
      }
    }

    /** The loop over the signals, and what its deferred calls leave behind. */
    method ConsumeRun(setup: Setup, signals: seq<Signal>) returns (r: Run)
      modifies this, sessions
      ensures r == Consume(setup, Begun(setup), signals)
      ensures sessions.active == if Frees(r.exit) then Released(old(sessions.active), setup.scope, setup.taskId)
                                 else old(sessions.active)
      ensures runs == if r.exit == Exit.Running then old(runs) else old(runs) - {setup.taskId}
    {
      r := Begun(setup);
      var i := 0;
      while i < |signals| && r.exit == Exit.Running
        invariant 0 <= i <= |signals|
        invariant Consume(setup, r, signals[i..]) == Consume(setup, Begun(setup), signals)
        invariant sessions.active == old(sessions.active) && runs == old(runs)
      {
        assert signals[i..][1..] == signals[i + 1..];
        r := TakeSignal(setup, r, signals[i]);
        i := i + 1;
      }
      if Frees(r.exit) {
        sessions.Release(setup.scope, setup.taskId);
      }
      if r.exit != Exit.Running {
        runs := runs - {setup.taskId};
      }
    }
  }

  /** The body of the select. */
  method TakeSignal(setup: Setup, run: Run, signal: Signal) returns (r: Run)
    ensures r == Pass(setup, run, signal)
  {
    hide FinalText, CompletionEvent, StructuredEvent, ChunkText;
    var events, errs, finalText, exit := run.events, run.errs, run.finalText, run.exit;
    var sawStructured, sawTerminal := run.sawStructured, run.sawTerminal;
    var lastActivity, promptFinished, drainUntil := run.lastActivity, run.promptFinished, run.drainUntil;
    match signal {
      case ContextDone => exit := Exit.Cancelled;
      case PromptReturned(now, error) =>
        if error.Some? {
          errs, exit := errs + [error.value], PromptFailed;
        } else {
          promptFinished, drainUntil := true, now + 500;
        }
      case Tick(now) =>
        if promptFinished && now > drainUntil {
          finalText := FinalText(setup, run);
          if ShouldComplete(setup, finalText, sawStructured, sawTerminal) {
            events := events + [CompletionEvent(setup, finalText)];
          }
          exit := Drained;
        } else if setup.idleTimeout > 0 && now - lastActivity > setup.idleTimeout {
          errs, exit := errs + [Name(setup.dialect) + " session idle timeout exceeded"], IdleTimeout;
        }
      case Notification(now, params) =>
        if Matches(setup, params) {
          lastActivity := now;
          if promptFinished {
            drainUntil := now + 250;
          }
          var text, event := ChunkText(params.value), StructuredEvent(setup, params.value);
          if text.Some? {
            finalText := finalText + text.value;
          } else if event.Some? {
            sawStructured := true;
            if event.value.kind == Terminal || event.value.state.IsTerminal() {
              sawTerminal := true;
            }
            events := events + [ToTaskEvent(setup, event.value)];
            if event.value.state.IsTerminal() {
              exit := TerminalSeen;
            }
          }
        }
      case SubscriptionClosed => exit := SubscriptionLost;
    }
    r := Run(events, errs, finalText, sawStructured, sawTerminal, lastActivity, promptFinished, drainUntil, exit, run.handled + 1);
  }
}
