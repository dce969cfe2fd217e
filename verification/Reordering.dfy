/** Commit order and publication order can differ between two appenders, and a live stream then skips
    the event that is published late. */
module Reordering {
  import opened TaskTypes
  import opened EventStore
  import opened AppendProtocol
  import opened NodeStream
  import Orchestrator
  import StreamSystem

  /** Two appenders of one task have committed, in the order e1, e2. Nothing keeps them from publishing
      the other way round: some run from here leaves e2 before e1 in a subscriber's queue. */
  lemma SwapIsReachable(s: State, w1: nat, w2: nat, id: nat) returns (run: seq<Action>)
    requires RegisteredInv(s) && w1 != w2 && PhaseOf(s, w1).Stored? && PhaseOf(s, w2).Stored?
    requires id in s.subscribers && s.subscribers[id] == PhaseOf(s, w1).e.taskId == PhaseOf(s, w2).e.taskId
    requires |s.channels[id].queue| + 2 <= QueueCapacity
    ensures Legal(s, run) && Exec(s, run).db == s.db && id in Exec(s, run).channels
    ensures Exec(s, run).channels[id].queue == s.channels[id].queue + [PhaseOf(s, w2).e, PhaseOf(s, w1).e]
  {
    var e1, e2 := PhaseOf(s, w1).e, PhaseOf(s, w2).e;
    var first := Orchestrator.PublishRun(s, w2);
    var s1 := Exec(s, first);
    assert s1.channels[id] == Offer(s.channels[id], e2);
    assert PhaseOf(s1, w1) == PhaseOf(s, w1);
    forall other | other in s1.subscribers ensures other in s1.channels && s1.channels[other].open {
      assert s.channels[other].open;
    }
    var second := Orchestrator.PublishRun(s1, w1);
    Orchestrator.RunConcat(s, first, second);
    run := first + second;
    assert Exec(s, run).channels[id] == Offer(s1.channels[id], e1);
    assert s.channels[id].queue + [e2] + [e1] == s.channels[id].queue + [e2, e1];
  }

  /** Of two fresh events received one after the other, neither terminal, the first is always written,
      and the second exactly when they came in number order. */
  lemma WrittenIffInOrder(last: int, seen: seq<TaskEvent>, x: TaskEvent, y: TaskEvent)
    requires !HasTerminal(FreshUntilTerminal(last, seen))
    requires LastSeq(last, seen) < x.seqNo && LastSeq(last, seen) < y.seqNo && x.seqNo != y.seqNo
    requires !x.state.IsTerminal() && !y.state.IsTerminal()
    ensures FreshUntilTerminal(last, seen + [x] + [y])
         == FreshUntilTerminal(last, seen) + if x.seqNo < y.seqNo then [x, y] else [x]
  {
    NextReception(last, seen, x, []);
    NextReception(last, seen + [x], y, []);
    assert [x] + [y] == [x, y];
  }

  /** An event that arrives after a later one of its task is never written, whatever follows. */
  lemma LateEventIsLost(history: seq<TaskEvent>, received: seq<TaskEvent>, e1: TaskEvent, e2: TaskEvent, rest: seq<TaskEvent>)
    requires !StreamSystem.Over(history, received)
    requires LastSeq(LastSeq(0, history), received) < e1.seqNo < e2.seqNo
    ensures forall e :: e in Emitted(history, received + [e2] + [e1] + rest) ==> e.seqNo != e1.seqNo
  {
    var base, all := LastSeq(0, history), received + [e2];
    var tail := [e1] + rest;
    StreamSystem.FreshFacts(0, history);
    StreamSystem.FreshFacts(base, received);
    LiveBound(base, received);
    assert received + [e2] + [e1] + rest == all + tail;
    NextReception(base, received, e2, tail);
    FreshUntilTerminalConcat(base, all, tail);
    StreamSystem.FreshUntilTerminalFacts(LastSeq(base, all), tail);
  }

  /** The live part never writes beyond the number it remembers. */
  lemma {:induction false} LiveBound(last: int, events: seq<TaskEvent>)
    ensures forall e :: e in FreshUntilTerminal(last, events) ==> e.seqNo <= LastSeq(last, events)
    decreases events
  {
    if events != [] {
      var next := if events[0].seqNo <= last then last else events[0].seqNo;
      LiveBound(next, events[1..]);
      StreamSystem.FreshFacts(next, events[1..]);
    }
  }

  // ---- A whole run that loses an event ----

  lemma {:induction false} Concat(y: StreamSystem.System, first: seq<StreamSystem.Move>, second: seq<StreamSystem.Move>)
    requires StreamSystem.LegalMoves(y, first) && StreamSystem.LegalMoves(StreamSystem.Reached(y, first), second)
    ensures StreamSystem.LegalMoves(y, first + second)
    ensures StreamSystem.Reached(y, first + second) == StreamSystem.Reached(StreamSystem.Reached(y, first), second)
    decreases first
  {
    hide StreamSystem.After, StreamSystem.CanMove;
    if first == [] {
      assert first + second == second;
    } else {
      Concat(StreamSystem.After(y, first[0]), first[1..], second);
      assert (first + second)[1..] == first[1..] + second;
    }
  }

  /** Appends one move to a run. */
  lemma Then(y: StreamSystem.System, moves: seq<StreamSystem.Move>, m: StreamSystem.Move)
    requires StreamSystem.LegalMoves(y, moves) && StreamSystem.CanMove(StreamSystem.Reached(y, moves), m)
    ensures StreamSystem.LegalMoves(y, moves + [m])
    ensures StreamSystem.Reached(y, moves + [m]) == StreamSystem.After(StreamSystem.Reached(y, moves), m)
  {
    hide StreamSystem.After, StreamSystem.CanMove;
    var next := StreamSystem.After(StreamSystem.Reached(y, moves), m);
    assert [m][1..] == [];
    assert StreamSystem.LegalMoves(next, []);
    Concat(y, moves, [m]);
  }

  /** Appends one step of an appender. */
  lemma ThenStep(y: StreamSystem.System, moves: seq<StreamSystem.Move>, a: Action)
    requires StreamSystem.LegalMoves(y, moves) && Enabled(StreamSystem.Reached(y, moves).base, a)
    requires !a.Receive? && !a.Unsubscribe?
    ensures StreamSystem.LegalMoves(y, moves + [StreamSystem.Background(a)])
    ensures StreamSystem.Reached(y, moves + [StreamSystem.Background(a)])
         == StreamSystem.Reached(y, moves).(base := Do(StreamSystem.Reached(y, moves).base, a))
  {
    hide Do, Enabled;
    Then(y, moves, StreamSystem.Background(a));
  }

  /** The handler opens its stream on a task without events and goes live. */
  lemma GoesLive(s: State, taskId: string) returns (moves: seq<StreamSystem.Move>)
    requires Booted(s) && EventsOf(s.db.events, taskId) == []
    ensures var y := StreamSystem.System(s, taskId, StreamSystem.NotStarted);
            && StreamSystem.LegalMoves(y, moves)
            && StreamSystem.Reached(y, moves)
               == StreamSystem.System(Do(s, Subscribe(taskId)), taskId, StreamSystem.Live(s.nextId, [], []))
  {
    var y := StreamSystem.System(s, taskId, StreamSystem.NotStarted);
    moves := [];
    Then(y, moves, StreamSystem.Open);
    moves := moves + [StreamSystem.Open];
    ListingIsLog(s.db.events, taskId, []);
    Then(y, moves, StreamSystem.Snapshot([]));
    moves := moves + [StreamSystem.Snapshot([])];
    Then(y, moves, StreamSystem.ReplayDone);
    moves := moves + [StreamSystem.ReplayDone];
  }

  /** Two appenders commit one after the other, each from the state the other left. */
  lemma CommitBoth(s: State, d1: Mutation, d2: Mutation) returns (e1: TaskEvent, e2: TaskEvent, s': State)
    requires Contiguous(s.db.events) && PhaseOf(s, 0).Idle? && PhaseOf(s, 1).Idle?
    requires d1.event.taskId == d2.event.taskId && EventsOf(s.db.events, d1.event.taskId) == []
    ensures e1 == d1.event.(seqNo := 1) && e2 == d2.event.(seqNo := 2)
    ensures Legal(s, [ReadSeq(0, d1), StoreEvent(0, NoFault)])
    ensures Legal(Exec(s, [ReadSeq(0, d1), StoreEvent(0, NoFault)]), [ReadSeq(1, d2), StoreEvent(1, NoFault)])
    ensures s' == Exec(Exec(s, [ReadSeq(0, d1), StoreEvent(0, NoFault)]), [ReadSeq(1, d2), StoreEvent(1, NoFault)])
    ensures s' == s.(db := s'.db, phases := s'.phases) && EventsOf(s'.db.events, d1.event.taskId) == [e1, e2]
    ensures PhaseOf(s', 0) == Stored(e1) && PhaseOf(s', 1) == Stored(e2)
    ensures forall w :: w != 0 && w != 1 ==> PhaseOf(s', w) == PhaseOf(s, w)
  {
    hide Legal, Exec, Contiguous, MaxSeq, EventsOf;
    var t := d1.event.taskId;
    Orchestrator.StoreRun(s, 0, d1, NoFault);
    ContiguousSeqs(s.db.events, t);
    var s1 := Exec(s, [ReadSeq(0, d1), StoreEvent(0, NoFault)]);
    Orchestrator.SoloAppendKeepsContiguous(s.db, d1);
    e1 := Numbered(s.db, d1).event;
    EventsOfAppend(s.db.events, e1, t);
    Orchestrator.StoreRun(s1, 1, d2, NoFault);
    ContiguousSeqs(s1.db.events, t);
    e2 := Numbered(s1.db, d2).event;
    EventsOfAppend(s1.db.events, e2, t);
    s' := Exec(s1, [ReadSeq(1, d2), StoreEvent(1, NoFault)]);
  }

  /** An appender alone publishes to the only subscriber. */
  lemma PublishToOne(y: StreamSystem.System, moves: seq<StreamSystem.Move>, w: nat, id: nat) returns (after: seq<StreamSystem.Move>)
    requires StreamSystem.LegalMoves(y, moves)
    requires var s := StreamSystem.Reached(y, moves).base;
             && PhaseOf(s, w).Stored? && s.subscribers == map[id := PhaseOf(s, w).e.taskId]
             && id in s.channels && s.channels[id].open && |s.channels[id].queue| < QueueCapacity
    ensures StreamSystem.LegalMoves(y, after)
    ensures var y1 := StreamSystem.Reached(y, moves);
            StreamSystem.Reached(y, after)
            == y1.(base := y1.base.(phases := y1.base.phases[w := Idle],
                                    channels := y1.base.channels[id := Offer(y1.base.channels[id], PhaseOf(y1.base, w).e)]))
  {
    var s := StreamSystem.Reached(y, moves).base;
    after := moves;
    ThenStep(y, after, StartPublish(w));
    after := after + [StreamSystem.Background(StartPublish(w))];
    assert PhaseOf(Do(s, StartPublish(w)), w).todo == {id};
    ThenStep(y, after, SendTo(w, id));
    after := after + [StreamSystem.Background(SendTo(w, id))];
    assert {id} - {id} == {};
    ThenStep(y, after, EndPublish(w));
    after := after + [StreamSystem.Background(EndPublish(w))];
    assert StreamSystem.Reached(y, after).base.phases == s.phases[w := Idle];
  }

  lemma TwoSteps(y: StreamSystem.System, moves: seq<StreamSystem.Move>, a: Action, b: Action)
    requires StreamSystem.LegalMoves(y, moves) && Legal(StreamSystem.Reached(y, moves).base, [a, b])
    requires !a.Receive? && !a.Unsubscribe? && !b.Receive? && !b.Unsubscribe?
    ensures StreamSystem.LegalMoves(y, moves + [StreamSystem.Background(a)] + [StreamSystem.Background(b)])
    ensures StreamSystem.Reached(y, moves + [StreamSystem.Background(a)] + [StreamSystem.Background(b)])
         == StreamSystem.Reached(y, moves).(base := Exec(StreamSystem.Reached(y, moves).base, [a, b]))
  {
    hide Do, Enabled;
    var s := StreamSystem.Reached(y, moves).base;
    assert [a, b][1..] == [b] && [b][1..] == [];
    Stepwise(s, [a, b]);
    Stepwise(Do(s, a), [b]);
    ThenStep(y, moves, a);
    ThenStep(y, moves + [StreamSystem.Background(a)], b);
  }

  /** Both events are committed in one order and published in the other. */
  lemma QueuedOutOfOrder(s: State, d1: Mutation, d2: Mutation) returns (moves: seq<StreamSystem.Move>)
    requires Booted(s) && d1.event.taskId == d2.event.taskId && EventsOf(s.db.events, d1.event.taskId) == []
    ensures var y := StreamSystem.System(s, d1.event.taskId, StreamSystem.NotStarted);
            && StreamSystem.LegalMoves(y, moves)
            && var y' := StreamSystem.Reached(y, moves);
               && y'.taskId == d1.event.taskId && y'.handler == StreamSystem.Live(s.nextId, [], [])
               && s.nextId in y'.base.channels
               && y'.base.channels[s.nextId].queue == [d2.event.(seqNo := 2), d1.event.(seqNo := 1)]
               && EventsOf(y'.base.db.events, d1.event.taskId) == [d1.event.(seqNo := 1), d2.event.(seqNo := 2)]
               && (forall w :: PhaseOf(y'.base, w).Idle?)
  {
    hide Legal, Exec, StreamSystem.LegalMoves, StreamSystem.Reached, Contiguous, EventsOf;
    var taskId, id := d1.event.taskId, s.nextId;
    var y := StreamSystem.System(s, taskId, StreamSystem.NotStarted);
    moves := GoesLive(s, taskId);
    var s1 := Do(s, Subscribe(taskId));
    assert forall w :: PhaseOf(s1, w) == Idle;
    var e1, e2, s2 := CommitBoth(s1, d1, d2);
    TwoSteps(y, moves, ReadSeq(0, d1), StoreEvent(0, NoFault));
    moves := moves + [StreamSystem.Background(ReadSeq(0, d1))] + [StreamSystem.Background(StoreEvent(0, NoFault))];
    TwoSteps(y, moves, ReadSeq(1, d2), StoreEvent(1, NoFault));
    moves := moves + [StreamSystem.Background(ReadSeq(1, d2))] + [StreamSystem.Background(StoreEvent(1, NoFault))];
    assert s2.subscribers == map[id := taskId] && s2.channels == map[id := NewChannel];
    moves := PublishToOne(y, moves, 1, id);
    moves := PublishToOne(y, moves, 0, id);
    assert [] + [e2] + [e1] == [e2, e1];
    forall w ensures PhaseOf(StreamSystem.Reached(y, moves).base, w).Idle? {
      assert w != 0 && w != 1 ==> PhaseOf(s2, w) == Idle;
    }
  }

  /** From any freshly booted node and for any two non-terminal events of a task that has none yet, some run
      commits both, publishes both into a queue with room, and leaves a live handler that has caught up
      having written only the second: the first is in the log and is never written again. */
  lemma BootedRunLosesAnEvent(s: State, d1: Mutation, d2: Mutation) returns (moves: seq<StreamSystem.Move>)
    requires Booted(s) && d1.event.taskId == d2.event.taskId && EventsOf(s.db.events, d1.event.taskId) == []
    requires !d1.event.state.IsTerminal() && !d2.event.state.IsTerminal()
    ensures var y := StreamSystem.System(s, d1.event.taskId, StreamSystem.NotStarted);
            && StreamSystem.LegalMoves(y, moves)
            && var y' := StreamSystem.Reached(y, moves);
               && y'.handler.Live? && y'.handler.id in y'.base.channels && StreamSystem.CaughtUp(y')
               && EventsOf(y'.base.db.events, y'.taskId) == [d1.event.(seqNo := 1), d2.event.(seqNo := 2)]
               && StreamSystem.Written(y'.handler) == [d2.event.(seqNo := 2)]
  {
    hide StreamSystem.LegalMoves, StreamSystem.Reached, StreamSystem.Written, EventsOf, Booted;
    var y := StreamSystem.System(s, d1.event.taskId, StreamSystem.NotStarted);
    moves := QueuedOutOfOrder(s, d1, d2);
    LiveTakesBoth(y, moves, s.nextId, d2.event.(seqNo := 2), d1.event.(seqNo := 1));
    var y1 := StreamSystem.Reached(y, moves);
    moves := moves + [StreamSystem.TakeLive] + [StreamSystem.TakeLive];
    var y2 := StreamSystem.Reached(y, moves);
    assert forall w :: PhaseOf(y2.base, w) == PhaseOf(y1.base, w);
  }

  /** A live handler over an empty snapshot takes two events that come in the wrong order. */
  lemma LiveTakesBoth(y: StreamSystem.System, moves: seq<StreamSystem.Move>, id: nat, x: TaskEvent, z: TaskEvent)
    requires StreamSystem.LegalMoves(y, moves) && StreamSystem.Reached(y, moves).handler == StreamSystem.Live(id, [], [])
    requires id in StreamSystem.Reached(y, moves).base.channels && StreamSystem.Reached(y, moves).base.channels[id].queue == [x, z]
    requires 0 < z.seqNo < x.seqNo && !x.state.IsTerminal() && !z.state.IsTerminal()
    ensures var after, y1 := moves + [StreamSystem.TakeLive] + [StreamSystem.TakeLive], StreamSystem.Reached(y, moves);
            && StreamSystem.LegalMoves(y, after)
            && var y' := StreamSystem.Reached(y, after);
               && y'.handler == StreamSystem.Live(id, [], [x, z]) && StreamSystem.Written(y'.handler) == [x]
               && y'.taskId == y1.taskId && y'.base.db == y1.base.db && y'.base.phases == y1.base.phases
               && id in y'.base.channels && y'.base.channels[id].queue == []
  {
    assert [x, z][1..] == [z] && [z][1..] == [];
    assert FreshUntilTerminal(0, [x]) == [x] by { assert [x][1..] == []; }
    assert FreshUntilTerminal(0, [x, z]) == [x] by { assert FreshUntilTerminal(x.seqNo, [z]) == []; }
    assert [] + [x] == [x] && [x] + [z] == [x, z];
    Then(y, moves, StreamSystem.TakeLive);
    Then(y, moves + [StreamSystem.TakeLive], StreamSystem.TakeLive);
  }
}
