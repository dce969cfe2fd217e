/** From an adapter's run to the task log: the run's channels, the lookup and the forwarding goroutine of
    StreamEvents, and the select loop of runTask. */
module RunPipeline {
  import opened TaskTypes

  const EventRoom := 64
  const ErrorRoom := 4

  /** What a run sends before it closes its error channel and then its event channel. */
  datatype Plan = Plan(events: seq<TaskEvent>, error: Option<string>)

  /** An event channel and an error channel. */
  datatype Pipe = Pipe(events: seq<TaskEvent>, errs: seq<string>, eventsClosed: bool, errsClosed: bool)

  const NewPipe := Pipe([], [], false, false)

  /** What the select loop of runTask took. */
  datatype Item = Adapter(event: TaskEvent) | StreamError(detail: string) | EventsClosed | ErrsClosed

  datatype Forwarder = Absent | Looping | Holding(event: TaskEvent) | Leaving | ErrsShut | Gone

  /** What StreamEvents found under the task's id when runTask called it. */
  datatype Lookup = NotYet | Found | Missing

  /** The run starts before runTask asks for its stream, and takes itself out of the registry when it is
      done. `abandoned` is history: an error branch was taken past events that were waiting. */
  datatype State = State(
    sent: nat,
    errorSent: bool,
    run: Pipe,
    registered: bool,
    lookup: Lookup,
    forwarder: Forwarder,
    out: Pipe,
    taken: seq<Item>,
    returned: bool,
    abandoned: bool)

  datatype Action =
    | Produce | ProduceError | CloseErrs | CloseEvents | Deregister
    | LookUp
    | ForwardTake | ForwardPut | ForwardError | ForwardErrsClosed | ForwardEventsClosed | ShutErrOut | ShutOut
    | TakeEvent | TakeError | TakeErrsClosed | TakeEventsClosed

  /** Submit has registered the run and runTask has not yet asked for its stream. */
  const Initial := State(0, false, NewPipe, true, NotYet, Absent, NewPipe, [], false, false)

  /** What StreamEvents returns for a run that is gone. */
  const MissingRun := Pipe([], ["missing acp run"], true, true)

  predicate Enabled(plan: Plan, s: State, a: Action) {
    match a
    case Produce => s.sent < |plan.events| && |s.run.events| < EventRoom
    case ProduceError => s.sent >= |plan.events| && plan.error.Some? && !s.errorSent && |s.run.errs| < ErrorRoom && !s.run.errsClosed
    case CloseErrs => s.sent >= |plan.events| && (plan.error.Some? ==> s.errorSent) && !s.run.errsClosed
    case CloseEvents => s.run.errsClosed && !s.run.eventsClosed
    case Deregister => s.run.eventsClosed && s.registered
    case LookUp => s.lookup.NotYet?
    case ForwardTake => s.forwarder.Looping? && s.run.events != []
    case ForwardPut => s.forwarder.Holding? && |s.out.events| < EventRoom
    case ForwardError => s.forwarder.Looping? && s.run.errs != [] && |s.out.errs| < ErrorRoom
    case ForwardErrsClosed => s.forwarder.Looping? && s.run.errs == [] && s.run.errsClosed
    case ForwardEventsClosed => s.forwarder.Looping? && s.run.events == [] && s.run.eventsClosed
    case ShutErrOut => s.forwarder.Leaving?
    case ShutOut => s.forwarder.ErrsShut?
    case TakeEvent => !s.lookup.NotYet? && !s.returned && s.out.events != []
    case TakeError => !s.lookup.NotYet? && !s.returned && s.out.errs != []
    case TakeErrsClosed => !s.lookup.NotYet? && !s.returned && s.out.errs == [] && s.out.errsClosed
    case TakeEventsClosed => !s.lookup.NotYet? && !s.returned && s.out.events == [] && s.out.eventsClosed
  }

  function Do(plan: Plan, s: State, a: Action): State
    requires Enabled(plan, s, a)
  {
    match a
    case Produce => s.(sent := s.sent + 1, run := s.run.(events := s.run.events + [plan.events[s.sent]]))
    case ProduceError => s.(errorSent := true, run := s.run.(errs := s.run.errs + [plan.error.value]))
    case CloseErrs => s.(run := s.run.(errsClosed := true))
    case CloseEvents => s.(run := s.run.(eventsClosed := true))
    case Deregister => s.(registered := false)
    case LookUp =>
      if s.registered then s.(lookup := Found, forwarder := Looping)
      else s.(lookup := Missing, forwarder := Gone, out := MissingRun)
    case ForwardTake => s.(forwarder := Holding(s.run.events[0]), run := s.run.(events := s.run.events[1..]))
    case ForwardPut => s.(forwarder := Looping, out := s.out.(events := s.out.events + [s.forwarder.event]))
    case ForwardError =>
      s.(forwarder := Leaving, out := s.out.(errs := s.out.errs + [s.run.errs[0]]), run := s.run.(errs := s.run.errs[1..]),
         abandoned := s.abandoned || s.run.events != [])
    case ForwardErrsClosed => s.(forwarder := Leaving, abandoned := s.abandoned || s.run.events != [])
    case ForwardEventsClosed => s.(forwarder := Leaving)
    case ShutErrOut => s.(forwarder := ErrsShut, out := s.out.(errsClosed := true))
    case ShutOut => s.(forwarder := Gone, out := s.out.(eventsClosed := true))
    case TakeEvent =>
      var e := s.out.events[0];
      s.(out := s.out.(events := s.out.events[1..]), taken := s.taken + [Adapter(e)], returned := e.state.IsTerminal())
    case TakeError =>
      s.(out := s.out.(errs := s.out.errs[1..]), taken := s.taken + [StreamError(s.out.errs[0])], returned := true,
         abandoned := s.abandoned || s.out.events != [])
    case TakeErrsClosed => s.(taken := s.taken + [ErrsClosed], returned := true, abandoned := s.abandoned || s.out.events != [])
    case TakeEventsClosed => s.(taken := s.taken + [EventsClosed], returned := true)
  }

  ghost predicate Legal(plan: Plan, s: State, acts: seq<Action>)
    decreases acts
  {
    acts == [] || (Enabled(plan, s, acts[0]) && Legal(plan, Do(plan, s, acts[0]), acts[1..]))
  }

  function Exec(plan: Plan, s: State, acts: seq<Action>): State
    requires Legal(plan, s, acts)
    decreases acts
  {
    if acts == [] then s else Exec(plan, Do(plan, s, acts[0]), acts[1..])
  }

  /** The adapter events among the items that runTask took. */
  function Recorded(items: seq<Item>): seq<TaskEvent> {
    if items == [] then []
    else
      var rest := Recorded(items[..|items| - 1]);
      if items[|items| - 1].Adapter? then rest + [items[|items| - 1].event] else rest
  }

  lemma RecordedAppend(items: seq<Item>, item: Item)
    ensures Recorded(items + [item]) == if item.Adapter? then Recorded(items) + [item.event] else Recorded(items)
  {
    assert (items + [item])[..|items|] == items;
  }

  function InHand(f: Forwarder): seq<TaskEvent> {
    if f.Holding? then [f.event] else []
  }

  predicate Left(f: Forwarder) {
    f.Leaving? || f.ErrsShut? || f.Gone?
  }

  /** No event is lost on the way; it is only left behind. */
  ghost predicate Conserved(plan: Plan, s: State) {
    && s.sent <= |plan.events|
    && Line(Recorded(s.taken), s.out.events, InHand(s.forwarder), s.run.events) == plan.events[..s.sent]
  }

  /** A stage that has stopped has a reason. */
  ghost predicate StopInv(plan: Plan, s: State) {
    && (s.run.errsClosed || s.run.eventsClosed || s.run.errs != [] || s.errorSent ==> s.sent == |plan.events|)
    && (Left(s.forwarder) ==> s.sent == |plan.events|)
    && (s.out.errs != [] || s.out.errsClosed || s.out.eventsClosed ==> Left(s.forwarder))
    && (s.returned ==> Left(s.forwarder) || EndedByTerminal(s))
    && (!s.registered ==> s.run.eventsClosed)
  }

  ghost predicate EndedByTerminal(s: State) {
    Recorded(s.taken) != [] && Recorded(s.taken)[|Recorded(s.taken)| - 1].state.IsTerminal()
  }

  /** Where events are left behind. */
  ghost predicate LossInv(s: State) {
    && (s.lookup.NotYet? ==> s.forwarder.Absent? && s.out == NewPipe && s.taken == [] && !s.returned && !s.abandoned)
    && (s.lookup.Missing? ==> s.forwarder.Gone? && s.out.events == [] && Recorded(s.taken) == [] && !s.abandoned)
    && (s.lookup.Found? && Left(s.forwarder) && !s.abandoned ==> s.run.events == [])
    && (s.lookup.Found? && s.returned && !s.abandoned ==> (Left(s.forwarder) && s.out.events == []) || EndedByTerminal(s))
    && (s.abandoned ==> (Left(s.forwarder) && s.run.events != []) || (s.returned && s.out.events != []))
  }

  /** Both channels keep to their capacity. */
  predicate RoomInv(s: State) {
    |s.run.events| <= EventRoom && |s.out.events| <= EventRoom
  }

  lemma RoomKept(plan: Plan, s: State, a: Action)
    requires RoomInv(s) && Enabled(plan, s, a)
    ensures RoomInv(Do(plan, s, a))
  {
  }

  lemma MoveHead(a: seq<TaskEvent>, b: seq<TaskEvent>, c: seq<TaskEvent>)
    requires b != []
    ensures (a + [b[0]]) + b[1..] + c == a + b + c
  {
    assert b == [b[0]] + b[1..];
  }

  /** The four places an event can be, in the order in which it passes them from right to left. */
  function Line(recorded: seq<TaskEvent>, out: seq<TaskEvent>, hand: seq<TaskEvent>, run: seq<TaskEvent>): seq<TaskEvent> {
    recorded + out + hand + run
  }

  lemma LineGrows(recorded: seq<TaskEvent>, out: seq<TaskEvent>, hand: seq<TaskEvent>, run: seq<TaskEvent>, e: TaskEvent)
    ensures Line(recorded, out, hand, run + [e]) == Line(recorded, out, hand, run) + [e]
  {
  }

  lemma LineShifts(recorded: seq<TaskEvent>, out: seq<TaskEvent>, hand: seq<TaskEvent>, run: seq<TaskEvent>)
    ensures run != [] ==> Line(recorded, out, [run[0]], run[1..]) == Line(recorded, out, [], run)
    ensures Line(recorded, out + hand, [], run) == Line(recorded, out, hand, run)
    ensures out != [] ==> Line(recorded + [out[0]], out[1..], hand, run) == Line(recorded, out, hand, run)
  {
    if run != [] {
      MoveHead(recorded + out, run, []);
    }
    if out != [] {
      MoveHead(recorded, out, hand + run);
    }
  }

  lemma ProducedOne(plan: Plan, n: nat)
    requires n < |plan.events|
    ensures plan.events[..n + 1] == plan.events[..n] + [plan.events[n]]
  {
  }

  /** Most steps move no event. */
  predicate MovesEvent(a: Action) {
    a.Produce? || a.ForwardTake? || a.ForwardPut? || a.TakeEvent? || a.LookUp?
  }

  lemma LineStays(plan: Plan, s: State, a: Action)
    requires Enabled(plan, s, a) && !MovesEvent(a)
    ensures var s' := Do(plan, s, a);
            s'.sent == s.sent && s'.out.events == s.out.events && InHand(s'.forwarder) == InHand(s.forwarder) && s'.run.events == s.run.events
  {
  }

  lemma ConservedKept(plan: Plan, s: State, a: Action)
    requires Conserved(plan, s) && LossInv(s) && Enabled(plan, s, a)
    ensures Conserved(plan, Do(plan, s, a))
  {
    TakenAfter(plan, s, a);
    if MovesEvent(a) {
      EventMoves(plan, s, a);
    } else {
      LineStays(plan, s, a);
      hide Line, Recorded, Do, Enabled, LossInv;
    }
  }

  lemma EventMoves(plan: Plan, s: State, a: Action)
    requires Conserved(plan, s) && LossInv(s) && Enabled(plan, s, a) && MovesEvent(a)
    requires Recorded(Do(plan, s, a).taken) == if a.TakeEvent? then Recorded(s.taken) + [s.out.events[0]] else Recorded(s.taken)
    ensures Conserved(plan, Do(plan, s, a))
  {
    hide Line, Recorded, Do, Enabled, LossInv, InHand;
    LineShifts(Recorded(s.taken), s.out.events, InHand(s.forwarder), s.run.events);
    match a
    case Produce =>
      ProduceMoves(plan, s);
      LineGrows(Recorded(s.taken), s.out.events, InHand(s.forwarder), s.run.events, plan.events[s.sent]);
      ProducedOne(plan, s.sent);
    case ForwardTake => ForwardTakeMoves(plan, s);
    case ForwardPut => ForwardPutMoves(plan, s);
    case TakeEvent => TakeEventMoves(plan, s);
    case LookUp => LookUpMoves(plan, s);
  }

  lemma ProduceMoves(plan: Plan, s: State)
    requires Enabled(plan, s, Produce)
    ensures var s' := Do(plan, s, Produce);
            && s.sent < |plan.events| && s'.sent == s.sent + 1 && s'.out == s.out && s'.forwarder == s.forwarder
            && s'.run.events == s.run.events + [plan.events[s.sent]]
  {
  }

  lemma ForwardTakeMoves(plan: Plan, s: State)
    requires Enabled(plan, s, ForwardTake)
    ensures var s' := Do(plan, s, ForwardTake);
            && s'.sent == s.sent && s'.out == s.out && s.run.events != [] && InHand(s.forwarder) == []
            && InHand(s'.forwarder) == [s.run.events[0]] && s'.run.events == s.run.events[1..]
  {
  }

  lemma ForwardPutMoves(plan: Plan, s: State)
    requires Enabled(plan, s, ForwardPut)
    ensures var s' := Do(plan, s, ForwardPut);
            s'.sent == s.sent && s'.out.events == s.out.events + InHand(s.forwarder) && InHand(s'.forwarder) == [] && s'.run == s.run
  {
  }

  lemma TakeEventMoves(plan: Plan, s: State)
    requires Enabled(plan, s, TakeEvent)
    ensures var s' := Do(plan, s, TakeEvent);
            && s'.sent == s.sent && s.out.events != [] && s'.out.events == s.out.events[1..]
            && s'.forwarder == s.forwarder && s'.run == s.run
  {
  }

  lemma LookUpMoves(plan: Plan, s: State)
    requires Enabled(plan, s, LookUp) && LossInv(s)
    ensures var s' := Do(plan, s, LookUp);
            s'.sent == s.sent && s'.out.events == s.out.events && InHand(s'.forwarder) == InHand(s.forwarder) && s'.run == s.run
  {
    hide Recorded;
  }

  lemma TakenAfter(plan: Plan, s: State, a: Action)
    requires Enabled(plan, s, a)
    ensures var s' := Do(plan, s, a);
            && (s.taken == [] ==> Recorded(s.taken) == [])
            && (a.TakeEvent? ==> Recorded(s'.taken) == Recorded(s.taken) + [s.out.events[0]])
            && (!a.TakeEvent? ==> Recorded(s'.taken) == Recorded(s.taken))
            && (!a.TakeEvent? && !a.TakeError? && !a.TakeErrsClosed? && !a.TakeEventsClosed? ==> s'.taken == s.taken)
  {
    var s' := Do(plan, s, a);
    if s'.taken != s.taken {
      RecordedAppend(s.taken, s'.taken[|s.taken|]);
    }
  }

  lemma StopInvKept(plan: Plan, s: State, a: Action)
    requires s.sent <= |plan.events| && StopInv(plan, s) && LossInv(s) && Enabled(plan, s, a)
    ensures StopInv(plan, Do(plan, s, a))
  {
    hide Recorded;
    TakenAfter(plan, s, a);
  }

  predicate ByRunTask(a: Action) {
    a.TakeEvent? || a.TakeError? || a.TakeErrsClosed? || a.TakeEventsClosed?
  }

  lemma OthersKeepLossInv(plan: Plan, s: State, a: Action)
    requires s.sent <= |plan.events| && StopInv(plan, s) && LossInv(s) && Enabled(plan, s, a) && !ByRunTask(a)
    ensures LossInv(Do(plan, s, a))
  {
    hide Recorded;
    TakenAfter(plan, s, a);
  }

  lemma RunTaskKeepsLossInv(plan: Plan, s: State, a: Action)
    requires StopInv(plan, s) && LossInv(s) && Enabled(plan, s, a) && ByRunTask(a)
    ensures LossInv(Do(plan, s, a))
  {
    hide Recorded;
    TakenAfter(plan, s, a);
  }

  ghost predicate PipelineInv(plan: Plan, s: State) {
    Conserved(plan, s) && StopInv(plan, s) && LossInv(s) && RoomInv(s)
  }

  lemma {:induction false} RunKeeps(plan: Plan, s: State, acts: seq<Action>)
    requires PipelineInv(plan, s) && Legal(plan, s, acts)
    ensures PipelineInv(plan, Exec(plan, s, acts))
    decreases acts
  {
    hide StopInv, LossInv, RoomInv, Do, Enabled;
    if acts != [] {
      ConservedKept(plan, s, acts[0]);
      StopInvKept(plan, s, acts[0]);
      if ByRunTask(acts[0]) {
        RunTaskKeepsLossInv(plan, s, acts[0]);
      } else {
        OthersKeepLossInv(plan, s, acts[0]);
      }
      RoomKept(plan, s, acts[0]);
      RunKeeps(plan, Do(plan, s, acts[0]), acts[1..]);
    }
  }

  predicate TerminalOnlyLast(events: seq<TaskEvent>) {
    forall i :: 0 <= i < |events| - 1 ==> !events[i].state.IsTerminal()
  }

  /** What is recorded is a prefix of what was sent; and what ended with a terminal event is all of it. */
  lemma RecordedIsPrefix(plan: Plan, s: State)
    requires TerminalOnlyLast(plan.events) && Conserved(plan, s)
    ensures Recorded(s.taken) <= plan.events
    ensures EndedByTerminal(s) ==> Recorded(s.taken) == plan.events
  {
    var recorded := Recorded(s.taken);
    assert plan.events[..s.sent][..|recorded|] == recorded;
    if EndedByTerminal(s) {
      assert recorded[|recorded| - 1] == plan.events[|recorded| - 1];
    }
  }

  /** In every interleaving, what runTask takes from the adapter is a prefix of what the run sent, in
      order. When runTask has returned it is all of it exactly when the run was still registered at the
      lookup (or had sent nothing) and no stage took its error branch past waiting events. */
  lemma TakenIsPrefix(plan: Plan, acts: seq<Action>)
    requires TerminalOnlyLast(plan.events) && Legal(plan, Initial, acts)
    ensures var s := Exec(plan, Initial, acts);
            && Recorded(s.taken) <= plan.events
            && (s.returned ==> (Recorded(s.taken) == plan.events
                                <==> (s.lookup.Found? || plan.events == []) && !s.abandoned))
  {
    RunKeeps(plan, Initial, acts);
    RecordedIsPrefix(plan, Exec(plan, Initial, acts));
  }

  /** At most both channels' room is ever lost once the run was found, and nothing of a longer run can be. */
  lemma LossIsBounded(plan: Plan, acts: seq<Action>)
    requires TerminalOnlyLast(plan.events) && Legal(plan, Initial, acts)
    ensures var s := Exec(plan, Initial, acts);
            s.returned ==> |plan.events| <= |Recorded(s.taken)| + 2 * EventRoom
  {
    RunKeeps(plan, Initial, acts);
    RecordedIsPrefix(plan, Exec(plan, Initial, acts));
    var s := Exec(plan, Initial, acts);
    if s.returned && !EndedByTerminal(s) {
      assert InHand(s.forwarder) == [];
      assert |Line(Recorded(s.taken), s.out.events, [], s.run.events)| == |plan.events|;
    }
  }

  // ---- What can be lost ----

  lemma {:induction false} Concat(plan: Plan, s: State, first: seq<Action>, second: seq<Action>)
    requires Legal(plan, s, first) && Legal(plan, Exec(plan, s, first), second)
    ensures Legal(plan, s, first + second) && Exec(plan, s, first + second) == Exec(plan, Exec(plan, s, first), second)
    decreases first
  {
    hide Do, Enabled;
    if first == [] {
      assert first + second == second;
    } else {
      Concat(plan, Do(plan, s, first[0]), first[1..], second);
      assert (first + second)[1..] == first[1..] + second;
    }
  }

  /** Appends one action to a run. */
  lemma Then(plan: Plan, acts: seq<Action>, a: Action)
    requires Legal(plan, Initial, acts) && Enabled(plan, Exec(plan, Initial, acts), a)
    ensures Legal(plan, Initial, acts + [a])
    ensures Exec(plan, Initial, acts + [a]) == Do(plan, Exec(plan, Initial, acts), a)
  {
    hide Do, Enabled;
    var s := Exec(plan, Initial, acts);
    assert [a][1..] == [];
    assert Legal(plan, Do(plan, s, a), []);
    Concat(plan, Initial, acts, [a]);
  }

  function Taken(plan: Plan, k: nat): seq<Item>
    requires k <= |plan.events|
  {
    seq(k, i requires 0 <= i < k => Adapter(plan.events[i]))
  }

  lemma TakenOneMore(plan: Plan, k: nat)
    requires k < |plan.events|
    ensures Taken(plan, k + 1) == Taken(plan, k) + [Adapter(plan.events[k])]
  {
  }

  lemma {:induction false} RecordedTaken(plan: Plan, k: nat)
    requires k <= |plan.events|
    ensures Recorded(Taken(plan, k)) == plan.events[..k]
  {
    if k > 0 {
      TakenOneMore(plan, k - 1);
      RecordedTaken(plan, k - 1);
      RecordedAppend(Taken(plan, k - 1), Adapter(plan.events[k - 1]));
      ProducedOne(plan, k - 1);
    }
  }

  /** The run was found; `k` events were taken, the next ones up to `m` wait for runTask, and those up to
      `n` wait for the forwarder. */
  function Midway(plan: Plan, k: nat, m: nat, n: nat): State
    requires k <= m <= n <= |plan.events|
  {
    State(n, false, NewPipe.(events := plan.events[m..n]), true, Found, Looping,
          NewPipe.(events := plan.events[k..m]), Taken(plan, k), false, false)
  }

  /** The first `k` events pass through one by one. */
  lemma {:induction false} PassThrough(plan: Plan, k: nat) returns (acts: seq<Action>)
    requires k <= |plan.events| && forall i :: 0 <= i < k ==> !plan.events[i].state.IsTerminal()
    ensures Legal(plan, Initial, acts) && Exec(plan, Initial, acts) == Midway(plan, k, k, k)
  {
    if k == 0 {
      acts := [];
      Then(plan, acts, LookUp);
      acts := acts + [LookUp];
    } else {
      acts := PassThrough(plan, k - 1);
      TakenOneMore(plan, k - 1);
      acts := PassOne(plan, k - 1, k - 1, acts);
      Then(plan, acts, TakeEvent);
      acts := acts + [TakeEvent];
    }
  }

  /** One more event is sent and forwarded. */
  lemma PassOne(plan: Plan, k: nat, m: nat, acts: seq<Action>) returns (after: seq<Action>)
    requires k <= m < |plan.events| && m - k < EventRoom
    requires Legal(plan, Initial, acts) && Exec(plan, Initial, acts) == Midway(plan, k, m, m)
    ensures Legal(plan, Initial, after) && Exec(plan, Initial, after) == Midway(plan, k, m + 1, m + 1)
  {
    after := SendOne(plan, k, m, m, acts);
    after := ForwardOne(plan, k, m, after);
  }

  /** The run sends one more event. */
  lemma SendOne(plan: Plan, k: nat, m: nat, n: nat, acts: seq<Action>) returns (after: seq<Action>)
    requires k <= m <= n < |plan.events| && n - m < EventRoom
    requires Legal(plan, Initial, acts) && Exec(plan, Initial, acts) == Midway(plan, k, m, n)
    ensures Legal(plan, Initial, after) && Exec(plan, Initial, after) == Midway(plan, k, m, n + 1)
  {
    hide Taken, Legal, Exec;
    assert plan.events[m..n + 1] == plan.events[m..n] + [plan.events[n]];
    Then(plan, acts, Produce);
    after := acts + [Produce];
  }

  /** The forwarder passes one event on. */
  lemma ForwardOne(plan: Plan, k: nat, m: nat, acts: seq<Action>) returns (after: seq<Action>)
    requires k <= m < |plan.events| && m - k < EventRoom
    requires Legal(plan, Initial, acts) && Exec(plan, Initial, acts) == Midway(plan, k, m, m + 1)
    ensures Legal(plan, Initial, after) && Exec(plan, Initial, after) == Midway(plan, k, m + 1, m + 1)
  {
    hide Taken, Legal, Exec;
    var e := plan.events[m];
    assert plan.events[m..m + 1] == [e] && [e][1..] == [] && plan.events[m + 1..m + 1] == [];
    assert plan.events[k..m + 1] == plan.events[k..m] + [e];
    Then(plan, acts, ForwardTake);
    after := acts + [ForwardTake];
    Then(plan, after, ForwardPut);
    after := after + [ForwardPut];
  }

  /** The next events are forwarded and wait for runTask. */
  lemma {:induction false} FillOut(plan: Plan, k: nat, m: nat) returns (acts: seq<Action>)
    requires k <= m <= |plan.events| && m - k <= EventRoom && forall i :: 0 <= i < k ==> !plan.events[i].state.IsTerminal()
    ensures Legal(plan, Initial, acts) && Exec(plan, Initial, acts) == Midway(plan, k, m, m)
    decreases m
  {
    if m == k {
      acts := PassThrough(plan, k);
    } else {
      acts := FillOut(plan, k, m - 1);
      acts := PassOne(plan, k, m - 1, acts);
    }
  }

  /** The rest is sent and waits for the forwarder. */
  lemma {:induction false} SendRest(plan: Plan, k: nat, m: nat, n: nat) returns (acts: seq<Action>)
    requires k <= m <= n <= |plan.events| && m - k <= EventRoom && n - m <= EventRoom
    requires forall i :: 0 <= i < k ==> !plan.events[i].state.IsTerminal()
    ensures Legal(plan, Initial, acts) && Exec(plan, Initial, acts) == Midway(plan, k, m, n)
    decreases n
  {
    if n == m {
      acts := FillOut(plan, k, m);
    } else {
      acts := SendRest(plan, k, m, n - 1);
      assert plan.events[m..n] == plan.events[m..n - 1] + [plan.events[n - 1]];
      Then(plan, acts, Produce);
      acts := acts + [Produce];
    }
  }

  /** The run closes its error channel, and the forwarder sees that before any waiting event. */
  lemma ForwarderLeaves(plan: Plan, k: nat, m: nat) returns (acts: seq<Action>)
    requires k <= m <= |plan.events| && m - k <= EventRoom && |plan.events| - m <= EventRoom && plan.error == None
    requires forall i :: 0 <= i < k ==> !plan.events[i].state.IsTerminal()
    ensures Legal(plan, Initial, acts)
    ensures var s := Midway(plan, k, m, |plan.events|);
            Exec(plan, Initial, acts) == s.(run := s.run.(errsClosed := true), forwarder := ErrsShut,
                                            out := s.out.(errsClosed := true), abandoned := m < |plan.events|)
  {
    acts := SendRest(plan, k, m, |plan.events|);
    Then(plan, acts, CloseErrs);
    acts := acts + [CloseErrs];
    Then(plan, acts, ForwardErrsClosed);
    acts := acts + [ForwardErrsClosed];
    Then(plan, acts, ShutErrOut);
    acts := acts + [ShutErrOut];
  }

  /** Any tail that fits the two channels can be lost without an error: the run sends everything, its
      terminal event included, and closes its error channel; the forwarder and then runTask see the closed
      channel first, and runTask returns having recorded only the first `k` events. */
  lemma TailCanBeLost(plan: Plan, k: nat) returns (acts: seq<Action>)
    requires k <= |plan.events| <= k + 2 * EventRoom && plan.error == None
    requires forall i :: 0 <= i < k ==> !plan.events[i].state.IsTerminal()
    ensures Legal(plan, Initial, acts)
    ensures var s := Exec(plan, Initial, acts);
            s.returned && s.sent == |plan.events| && s.taken == Taken(plan, k) + [ErrsClosed]
            && Recorded(s.taken) == plan.events[..k]
  {
    acts := ForwarderLeaves(plan, k, if |plan.events| <= k + EventRoom then |plan.events| else k + EventRoom);
    RecordedTaken(plan, k);
    RecordedAppend(Taken(plan, k), ErrsClosed);
    Then(plan, acts, TakeErrsClosed);
    acts := acts + [TakeErrsClosed];
  }

  /** A run of the pipeline after which runTask has returned with the first `k` events and no error. */
  ghost predicate EndsSilentlyAt(plan: Plan, acts: seq<Action>, k: nat) {
    && Legal(plan, Initial, acts) && Exec(plan, Initial, acts).returned
    && |Recorded(Exec(plan, Initial, acts).taken)| == k
    && forall d :: StreamError(d) !in Exec(plan, Initial, acts).taken
  }

  lemma TakenHasNoError(plan: Plan, k: nat)
    requires k <= |plan.events|
    ensures forall d :: StreamError(d) !in Taken(plan, k) && StreamError(d) !in Taken(plan, k) + [ErrsClosed]
  {
  }

  /** A run that ends with its terminal event can be recorded whole. */
  lemma WholeRunTaken(plan: Plan) returns (acts: seq<Action>)
    requires TerminalOnlyLast(plan.events) && plan.events != [] && plan.events[|plan.events| - 1].state.IsTerminal()
    ensures EndsSilentlyAt(plan, acts, |plan.events|)
  {
    var n := |plan.events|;
    acts := PassThrough(plan, n - 1);
    TakenOneMore(plan, n - 1);
    acts := PassOne(plan, n - 1, n - 1, acts);
    Then(plan, acts, TakeEvent);
    acts := acts + [TakeEvent];
    RecordedTaken(plan, n);
    TakenHasNoError(plan, n);
  }

  /** Exactly which parts of a clean run can be what a silently ended log keeps: every beginning that
      leaves out no more than the two channels hold. */
  lemma CutsExactly(plan: Plan, k: nat)
    requires TerminalOnlyLast(plan.events) && plan.error == None
    ensures (exists acts :: EndsSilentlyAt(plan, acts, k)) <==> k <= |plan.events| <= k + 2 * EventRoom
  {
    hide Legal, Exec, Taken, RoomInv;
    if exists acts :: EndsSilentlyAt(plan, acts, k) {
      var acts :| EndsSilentlyAt(plan, acts, k);
      LossIsBounded(plan, acts);
      TakenIsPrefix(plan, acts);
    }
    if k <= |plan.events| <= k + 2 * EventRoom {
      if k == |plan.events| && plan.events != [] && plan.events[k - 1].state.IsTerminal() {
        var acts := WholeRunTaken(plan);
      } else {
        var acts := TailCanBeLost(plan, k);
        TakenHasNoError(plan, k);
        assert EndsSilentlyAt(plan, acts, k);
      }
    }
  }

  // ---- The whole run can be lost ----

  /** The run sends its events before anyone asks for its stream. */
  lemma {:induction false} SendUnasked(plan: Plan, n: nat) returns (acts: seq<Action>)
    requires n <= |plan.events| && n <= EventRoom
    ensures Legal(plan, Initial, acts)
    ensures Exec(plan, Initial, acts) == Initial.(sent := n, run := NewPipe.(events := plan.events[..n]))
  {
    if n == 0 {
      acts := [];
    } else {
      acts := SendUnasked(plan, n - 1);
      ProducedOne(plan, n - 1);
      Then(plan, acts, Produce);
      acts := acts + [Produce];
    }
  }

  /** The run is over and out of the registry before runTask asks for its stream. */
  lemma GoneBeforeLookup(plan: Plan) returns (acts: seq<Action>)
    requires |plan.events| <= EventRoom
    ensures Legal(plan, Initial, acts)
    ensures var s := Exec(plan, Initial, acts);
            && s.lookup.Missing? && s.sent == |plan.events| && s.out == MissingRun && s.taken == [] && !s.returned && !s.abandoned
            && (plan.error.Some? ==> s.run.errs == [plan.error.value])
  {
    acts := SendUnasked(plan, |plan.events|);
    if plan.error.Some? {
      assert [] + [plan.error.value] == [plan.error.value];
      Then(plan, acts, ProduceError);
      acts := acts + [ProduceError];
    }
    Then(plan, acts, CloseErrs);
    acts := acts + [CloseErrs];
    Then(plan, acts, CloseEvents);
    acts := acts + [CloseEvents];
    Then(plan, acts, Deregister);
    acts := acts + [Deregister];
    Then(plan, acts, LookUp);
    acts := acts + [LookUp];
  }

  /** Any run that fits its channel, such as one whose prompt fails at once, can be lost whole: it is gone
      from the registry when runTask asks for its stream, and runTask either returns without a word or
      records that the run is missing, whatever the run itself had to report. */
  lemma WholeRunCanBeLost(plan: Plan, silent: bool) returns (acts: seq<Action>)
    requires |plan.events| <= EventRoom
    ensures Legal(plan, Initial, acts)
    ensures var s := Exec(plan, Initial, acts);
            && s.returned && s.sent == |plan.events| && !s.abandoned && Recorded(s.taken) == []
            && s.taken == [if silent then EventsClosed else StreamError("missing acp run")]
  {
    acts := GoneBeforeLookup(plan);
    var a := if silent then TakeEventsClosed else TakeError;
    RecordedAppend([], if silent then EventsClosed else StreamError("missing acp run"));
    assert [] + [EventsClosed] == [EventsClosed] && [] + [StreamError("missing acp run")] == [StreamError("missing acp run")];
    Then(plan, acts, a);
    acts := acts + [a];
  }

  // ---- The run's error ----

  /** Where an error can come from: the run, if it was found, and the lookup otherwise. */
  predicate ErrorFrom(plan: Plan, lookup: Lookup, d: string) {
    if lookup.Found? then plan.error == Some(d) else d == "missing acp run"
  }

  ghost predicate ErrorInv(plan: Plan, s: State) {
    && (forall d :: d in s.run.errs ==> plan.error == Some(d))
    && (forall d :: d in s.out.errs ==> ErrorFrom(plan, s.lookup, d))
    && (forall d :: StreamError(d) in s.taken ==> ErrorFrom(plan, s.lookup, d))
    && (s.lookup.NotYet? ==> s.out == NewPipe && s.taken == [] && s.forwarder.Absent?)
    && (s.lookup.Missing? ==> s.forwarder.Gone?)
  }

  /** What a step does to the errors in the second channel and to what runTask took. */
  lemma ErrorMoves(plan: Plan, s: State, a: Action)
    requires Enabled(plan, s, a)
    ensures var s' := Do(plan, s, a);
            && (a.LookUp? || s'.lookup == s.lookup)
            && (a.LookUp? ==> s.lookup.NotYet? && s'.taken == s.taken
                              && s'.out == if s'.lookup.Missing? then MissingRun else s.out)
            && (forall d :: d in s'.run.errs ==> d in s.run.errs || plan.error == Some(d))
            && (!a.LookUp? ==> forall d :: d in s'.out.errs ==> d in s.out.errs || (s.forwarder.Looping? && d in s.run.errs))
            && (forall d :: StreamError(d) in s'.taken ==> StreamError(d) in s.taken || d in s.out.errs)
  {
    match a
    case TakeError => TakenNext(s.taken, StreamError(s.out.errs[0]));
    case TakeEvent => TakenNext(s.taken, Adapter(s.out.events[0]));
    case TakeErrsClosed => TakenNext(s.taken, ErrsClosed);
    case TakeEventsClosed => TakenNext(s.taken, EventsClosed);
    case _ =>
  }

  lemma TakenNext(taken: seq<Item>, item: Item)
    ensures forall d :: StreamError(d) in taken + [item] <==> StreamError(d) in taken || item == StreamError(d)
  {
  }

  lemma ErrorInvKept(plan: Plan, s: State, a: Action)
    requires ErrorInv(plan, s) && Enabled(plan, s, a)
    ensures ErrorInv(plan, Do(plan, s, a))
  {
    ErrorMoves(plan, s, a);
    ForwarderWaits(plan, s, a);
    hide Do, Enabled;
    assert NewPipe.errs == [] && forall d :: d in MissingRun.errs ==> d == "missing acp run";
  }

  lemma ForwarderWaits(plan: Plan, s: State, a: Action)
    requires Enabled(plan, s, a)
    ensures s.lookup.NotYet? && s.forwarder.Absent? && s.out == NewPipe && s.taken == [] && Do(plan, s, a).lookup.NotYet? ==>
              var s' := Do(plan, s, a); s'.forwarder.Absent? && s'.out == NewPipe && s'.taken == []
    ensures s.lookup.Missing? && s.forwarder.Gone? ==> Do(plan, s, a).forwarder.Gone?
    ensures s.lookup.NotYet? && Do(plan, s, a).lookup.Missing? ==> Do(plan, s, a).forwarder.Gone?
  {
  }

  lemma {:induction false} ErrorInvInRuns(plan: Plan, s: State, acts: seq<Action>)
    requires ErrorInv(plan, s) && Legal(plan, s, acts)
    ensures ErrorInv(plan, Exec(plan, s, acts))
    decreases acts
  {
    hide ErrorInv, Do, Enabled;
    if acts != [] {
      ErrorInvKept(plan, s, acts[0]);
      ErrorInvInRuns(plan, Do(plan, s, acts[0]), acts[1..]);
    }
  }

  /** In every interleaving, an error that runTask takes is the run's own, unless the run was gone at the lookup. */
  lemma ErrorIsTheRuns(plan: Plan, acts: seq<Action>, d: string)
    requires Legal(plan, Initial, acts) && StreamError(d) in Exec(plan, Initial, acts).taken
    ensures plan.error == Some(d) || (Exec(plan, Initial, acts).lookup.Missing? && d == "missing acp run")
  {
    ErrorInvInRuns(plan, Initial, acts);
  }

  /** All events have passed, and the run has sent its error and closed both channels. */
  lemma RunFails(plan: Plan) returns (acts: seq<Action>)
    requires plan.error.Some? && forall i :: 0 <= i < |plan.events| ==> !plan.events[i].state.IsTerminal()
    ensures Legal(plan, Initial, acts)
    ensures Exec(plan, Initial, acts)
         == State(|plan.events|, true, Pipe([], [plan.error.value], true, true), true, Found, Looping, NewPipe, Taken(plan, |plan.events|), false, false)
  {
    var k := |plan.events|;
    acts := PassThrough(plan, k);
    assert plan.events[k..k] == [] && [] + [plan.error.value] == [plan.error.value];
    Then(plan, acts, ProduceError);
    acts := acts + [ProduceError];
    Then(plan, acts, CloseErrs);
    acts := acts + [CloseErrs];
    Then(plan, acts, CloseEvents);
    acts := acts + [CloseEvents];
  }

  /** The forwarder sees the closed event channel before the error that waits beside it. */
  lemma ForwarderMissesError(plan: Plan) returns (acts: seq<Action>)
    requires plan.error.Some? && forall i :: 0 <= i < |plan.events| ==> !plan.events[i].state.IsTerminal()
    ensures Legal(plan, Initial, acts)
    ensures Exec(plan, Initial, acts)
         == State(|plan.events|, true, Pipe([], [plan.error.value], true, true), true, Found, ErrsShut,
                  NewPipe.(errsClosed := true), Taken(plan, |plan.events|), false, false)
  {
    hide Taken;
    acts := RunFails(plan);
    Then(plan, acts, ForwardEventsClosed);
    acts := acts + [ForwardEventsClosed];
    Then(plan, acts, ShutErrOut);
    acts := acts + [ShutErrOut];
  }

  /** The error itself can be lost with nothing else: for any run that fails without a terminal event, some run of
      the pipeline records all its events and then, seeing closed channels first, returns without it. */
  lemma ErrorCanBeLost(plan: Plan) returns (acts: seq<Action>)
    requires plan.error.Some? && forall i :: 0 <= i < |plan.events| ==> !plan.events[i].state.IsTerminal()
    ensures Legal(plan, Initial, acts)
    ensures var s := Exec(plan, Initial, acts);
            && s.returned && s.errorSent && s.run.eventsClosed && s.lookup.Found? && Recorded(s.taken) == plan.events
            && forall d :: StreamError(d) !in s.taken
  {
    var k := |plan.events|;
    RecordedTaken(plan, k);
    RecordedAppend(Taken(plan, k), ErrsClosed);
    TakenHasNoError(plan, k);
    assert plan.events[..k] == plan.events;
    hide Recorded, Taken;
    acts := ForwarderMissesError(plan);
    Then(plan, acts, TakeErrsClosed);
    acts := acts + [TakeErrsClosed];
  }

  /** The forwarder takes the error and passes it on. */
  lemma ForwarderPassesError(plan: Plan) returns (acts: seq<Action>)
    requires plan.error.Some? && forall i :: 0 <= i < |plan.events| ==> !plan.events[i].state.IsTerminal()
    ensures Legal(plan, Initial, acts)
    ensures Exec(plan, Initial, acts)
         == State(|plan.events|, true, Pipe([], [], true, true), true, Found, Leaving,
                  NewPipe.(errs := [plan.error.value]), Taken(plan, |plan.events|), false, false)
  {
    hide Taken;
    assert [] + [plan.error.value] == [plan.error.value] && [plan.error.value][1..] == [];
    acts := RunFails(plan);
    Then(plan, acts, ForwardError);
    acts := acts + [ForwardError];
  }

  /** The same run can also be recorded whole, its error last. */
  lemma ErrorCanBeRecorded(plan: Plan) returns (acts: seq<Action>)
    requires plan.error.Some? && forall i :: 0 <= i < |plan.events| ==> !plan.events[i].state.IsTerminal()
    ensures Legal(plan, Initial, acts)
    ensures var s := Exec(plan, Initial, acts);
            s.returned && Recorded(s.taken) == plan.events && s.taken != [] && s.taken[|s.taken| - 1] == StreamError(plan.error.value)
  {
    var k := |plan.events|;
    RecordedTaken(plan, k);
    RecordedAppend(Taken(plan, k), StreamError(plan.error.value));
    assert plan.events[..k] == plan.events;
    hide Recorded, Taken;
    acts := ForwarderPassesError(plan);
    Then(plan, acts, TakeError);
    acts := acts + [TakeError];
  }
}
