/** A peer stream handler running beside any number of appenders and other subscribers. */
module StreamSystem {
  import opened TaskTypes
  import opened EventStore
  import opened AppendProtocol
  import opened NodeStream

  /** Where the handler stands. `history` is its snapshot of the log, `next` how much of it has been
      replayed, `received` what it has taken from its queue. */
  datatype Handler =
    | NotStarted
    | Registered(id: nat)
    | Replaying(id: nat, history: seq<TaskEvent>, next: nat, received: seq<TaskEvent>)
    | Live(id: nat, history: seq<TaskEvent>, received: seq<TaskEvent>)
    | Finished(id: nat, history: seq<TaskEvent>, received: seq<TaskEvent>)

  datatype System = System(base: State, taskId: string, handler: Handler)

  datatype Move =
    | Background(a: Action)
    | Open
    | Snapshot(rows: seq<TaskEvent>)
    | ReplayNext
    | ReplayDone
    | TakeLive
    | HangUp

  /** Everything the handler has written so far. */
  function Written(h: Handler): seq<TaskEvent> {
    match h
    case NotStarted => []
    case Registered(_) => []
    case Replaying(_, history, next, _) => if next <= |history| then Fresh(0, history[..next]) else []
    case Live(_, history, received) => Emitted(history, received)
    case Finished(_, history, received) => Emitted(history, received)
  }

  /** The stream has written its last frame. */
  predicate Over(history: seq<TaskEvent>, received: seq<TaskEvent>) {
    HasTerminal(Fresh(0, history)) || HasTerminal(FreshUntilTerminal(LastSeq(0, history), received))
  }

  /** Only the handler reads its queue, and only its deferred cancel, run when it is finished, closes it. */
  predicate OwnChannel(h: Handler, a: Action) {
    !h.NotStarted? && ((a.Receive? && a.id == h.id) || (a.Unsubscribe? && a.id == h.id && !h.Finished?))
  }

  predicate QueueReady(y: System) {
    !y.handler.NotStarted? && Enabled(y.base, Receive(y.handler.id))
  }

  /** A stale history row is skipped, and then there is no poll. */
  predicate Skips(h: Handler)
    requires h.Replaying? && h.next < |h.history|
  {
    h.history[h.next].seqNo <= LastSeq(0, h.history[..h.next])
  }

  ghost predicate CanMove(y: System, m: Move) {
    match m
    case Background(a) => Enabled(y.base, a) && !OwnChannel(y.handler, a)
    case Open => y.handler.NotStarted? && WriteLockFree(y.base)
    case Snapshot(rows) => y.handler.Registered? && ListedBySeq(y.base.db.events, y.taskId, rows)
    case ReplayNext => y.handler.Replaying? && y.handler.next < |y.handler.history|
    case ReplayDone => y.handler.Replaying? && y.handler.next == |y.handler.history|
    case TakeLive => y.handler.Live? && QueueReady(y)
    case HangUp => y.handler.Live?
  }

  /** Takes the head of the handler's queue. */
  function Taken1(y: System): (r: (State, TaskEvent))
    requires QueueReady(y)
  {
    (Do(y.base, Receive(y.handler.id)), y.base.channels[y.handler.id].queue[0])
  }

  ghost function After(y: System, m: Move): System
    requires CanMove(y, m)
  {
    match m
    case Background(a) => y.(base := Do(y.base, a))
    case Open => y.(base := Do(y.base, Subscribe(y.taskId)), handler := Registered(y.base.nextId))
    case Snapshot(rows) => y.(handler := Replaying(y.handler.id, rows, 0, []))
    case ReplayNext =>
      var h := y.handler;
      if Skips(h) || !QueueReady(y) then y.(handler := h.(next := h.next + 1))
      else
        var (base, e) := Taken1(y);
        y.(base := base, handler := h.(next := h.next + 1, received := h.received + [e]))
    case ReplayDone =>
      var h := y.handler;
      y.(handler := if Over(h.history, h.received) then Finished(h.id, h.history, h.received)
                    else Live(h.id, h.history, h.received))
    case TakeLive =>
      var h := y.handler;
      var (base, e) := Taken1(y);
      var received := h.received + [e];
      y.(base := base, handler := if Over(h.history, received) then Finished(h.id, h.history, received)
                                  else Live(h.id, h.history, received))
    case HangUp => y.(handler := Finished(y.handler.id, y.handler.history, y.handler.received))
  }

  ghost predicate LegalMoves(y: System, moves: seq<Move>)
    decreases moves
  {
    moves == [] || (CanMove(y, moves[0]) && LegalMoves(After(y, moves[0]), moves[1..]))
  }

  ghost function Reached(y: System, moves: seq<Move>): System
    requires LegalMoves(y, moves)
    decreases moves
  {
    if moves == [] then y else Reached(After(y, moves[0]), moves[1..])
  }

  // ---- What every run keeps ----

  function History(h: Handler): seq<TaskEvent> {
    if h.NotStarted? || h.Registered? then [] else h.history
  }

  function Received(h: Handler): seq<TaskEvent> {
    if h.NotStarted? || h.Registered? then [] else h.received
  }

  /** First in, first out: what the handler has taken and what is still queued is what was accepted. */
  ghost predicate Fifo(y: System)
    requires !y.handler.NotStarted?
  {
    && y.handler.id in y.base.channels
    && Received(y.handler) + y.base.channels[y.handler.id].queue == y.base.channels[y.handler.id].accepted
  }

  /** The handler's channel stays registered for its task as long as the handler runs. */
  ghost predicate Attached(y: System)
    requires !y.handler.NotStarted?
  {
    && (y.handler.id in y.base.subscribers ==> y.base.subscribers[y.handler.id] == y.taskId)
    && (!y.handler.Finished? ==> y.handler.id in y.base.subscribers)
  }

  ghost predicate SnapshotIsPrefix(y: System) {
    && History(y.handler) <= EventsOf(y.base.db.events, y.taskId)
    && (y.handler.Replaying? ==> y.handler.next <= |y.handler.history|)
    && (y.handler.Live? ==> !Over(y.handler.history, y.handler.received))
  }

  ghost predicate ReceivedIsLogged(y: System) {
    forall e :: e in Received(y.handler) ==> e in EventsOf(y.base.db.events, y.taskId)
  }

  ghost predicate HandlerInv(y: System) {
    && (!y.handler.NotStarted? ==> Fifo(y) && Attached(y))
    && SnapshotIsPrefix(y) && ReceivedIsLogged(y)
  }

  /** The task's log only grows at its end. */
  lemma LogGrows(s: State, a: Action, taskId: string)
    requires Enabled(s, a)
    ensures EventsOf(s.db.events, taskId) <= EventsOf(Do(s, a).db.events, taskId)
  {
    TableAfter(s, a);
    if Do(s, a).db.events != s.db.events {
      EventsOfAppend(s.db.events, PhaseOf(s, a.w).m.event, taskId);
    }
  }

  lemma BackgroundKeepsChannel(y: System, a: Action)
    requires RegisteredInv(y.base) && !y.handler.NotStarted? && CanMove(y, Background(a)) && Fifo(y) && Attached(y)
    ensures Fifo(After(y, Background(a))) && Attached(After(y, Background(a)))
  {
    var id := y.handler.id;
    var s, s' := y.base, Do(y.base, a);
    assert id in s'.channels;
    ChannelMoves(s, a, id);
    LogOnlyGrows(s, a);
    OfferKeepsFifo(Received(y.handler), s.channels[id], if a.SendTo? then PhaseOf(s, a.w).e else TaskCreatedEvent);
  }

  const TaskCreatedEvent := TaskEvent("", 0, TaskCreated, Created, FromCore, "", map[])

  lemma OfferKeepsFifo(received: seq<TaskEvent>, c: Channel, e: TaskEvent)
    requires received + c.queue == c.accepted
    ensures received + Offer(c, e).queue == Offer(c, e).accepted
  {
    assert received + (c.queue + [e]) == received + c.queue + [e];
  }

  /** What waits in the queue of a registered subscriber belongs to the log of its task. */
  lemma QueuedIsLogged(s: State, id: nat, taskId: string)
    requires Inv(s) && id in s.channels && id in s.subscribers && s.subscribers[id] == taskId
    ensures forall e :: e in s.channels[id].queue ==> e in EventsOf(s.db.events, taskId)
  {
    var c := s.channels[id];
    EventsOfMembers(s.db.events, taskId);
    assert ChannelInv(c) && OffersCommitted(s, id, c);
    SubsequenceMembers(c.accepted, c.offered);
    assert forall e :: e in c.queue ==> e in c.accepted;
  }

  lemma TakingKeepsFifo(y: System)
    requires QueueReady(y) && Fifo(y)
    ensures y.handler.id in Taken1(y).0.channels
    ensures Received(y.handler) + [Taken1(y).1] + Taken1(y).0.channels[y.handler.id].queue
         == Taken1(y).0.channels[y.handler.id].accepted
  {
    var queue := y.base.channels[y.handler.id].queue;
    assert queue == [queue[0]] + queue[1..];
    assert Received(y.handler) + [queue[0]] + queue[1..] == Received(y.handler) + queue;
  }

  /** The moves that take from the queue. */
  lemma TakingKeepsHandlerInv(y: System, m: Move)
    requires Inv(y.base) && HandlerInv(y) && CanMove(y, m) && QueueReady(y)
    requires m.TakeLive? || (m.ReplayNext? && !Skips(y.handler))
    ensures HandlerInv(After(y, m))
  {
    TakingKeepsFifo(y);
    QueuedIsLogged(y.base, y.handler.id, y.taskId);
    TakenMove(y, m);
  }

  /** What such a move does. */
  lemma TakenMove(y: System, m: Move)
    requires CanMove(y, m) && QueueReady(y) && (m.TakeLive? || (m.ReplayNext? && !Skips(y.handler)))
    ensures var y' := After(y, m);
            && y'.base == Taken1(y).0 && y'.taskId == y.taskId && y'.handler.id == y.handler.id
            && History(y'.handler) == History(y.handler)
            && Received(y'.handler) == Received(y.handler) + [Taken1(y).1]
            && y'.base.db == y.base.db && y'.base.subscribers == y.base.subscribers
            && Taken1(y).1 in y.base.channels[y.handler.id].queue
  {
  }

  lemma BackgroundKeepsHandlerInv(y: System, a: Action)
    requires RegisteredInv(y.base) && HandlerInv(y) && CanMove(y, Background(a))
    ensures HandlerInv(After(y, Background(a)))
  {
    LogGrows(y.base, a, y.taskId);
    if !y.handler.NotStarted? {
      BackgroundKeepsChannel(y, a);
    }
  }

  /** The moves that touch only the handler. */
  lemma HandlerKeepsHandlerInv(y: System, m: Move)
    requires HandlerInv(y) && CanMove(y, m) && After(y, m).base == y.base && !m.Background? && !m.Open?
    requires m.Snapshot? ==> m.rows == EventsOf(y.base.db.events, y.taskId)
    ensures HandlerInv(After(y, m))
  {
  }

  lemma MoveKeepsHandlerInv(y: System, m: Move)
    requires Inv(y.base) && HandlerInv(y) && CanMove(y, m)
    ensures HandlerInv(After(y, m))
  {
    if m.Background? {
      BackgroundKeepsHandlerInv(y, m.a);
    } else if m.TakeLive? || (m.ReplayNext? && !Skips(y.handler) && QueueReady(y)) {
      TakingKeepsHandlerInv(y, m);
    } else if !m.Open? {
      if m.Snapshot? {
        ListingIsLog(y.base.db.events, y.taskId, m.rows);
      }
      HandlerKeepsHandlerInv(y, m);
    }
  }

  /** The protocol below sees a move as one of its own actions, or not at all. */
  lemma MoveKeepsInv(y: System, m: Move)
    requires Inv(y.base) && CanMove(y, m)
    ensures Inv(After(y, m).base)
  {
    if After(y, m).base != y.base {
      InvKept(y.base, BaseAction(y, m));
    }
  }

  function BaseAction(y: System, m: Move): Action
    requires m.Background? || m.Open? || !y.handler.NotStarted?
  {
    match m
    case Background(a) => a
    case Open => Subscribe(y.taskId)
    case _ => Receive(y.handler.id)
  }

  lemma {:induction false} MovesKeepInv(y: System, moves: seq<Move>)
    requires Inv(y.base) && HandlerInv(y) && LegalMoves(y, moves)
    ensures Inv(Reached(y, moves).base) && HandlerInv(Reached(y, moves))
    decreases moves
  {
    if moves != [] {
      MoveKeepsInv(y, moves[0]);
      MoveKeepsHandlerInv(y, moves[0]);
      MovesKeepInv(After(y, moves[0]), moves[1..]);
    }
  }

  // ---- What is written, in every run ----

  lemma {:induction false} FreshFacts(last: int, events: seq<TaskEvent>)
    ensures StrictlyIncreasing(Fresh(last, events))
    ensures forall e :: e in Fresh(last, events) ==> e in events && last < e.seqNo <= LastSeq(last, events)
    ensures last <= LastSeq(last, events)
    decreases events
  {
    if events != [] {
      var next := if events[0].seqNo <= last then last else events[0].seqNo;
      FreshFacts(next, events[1..]);
      IncreasingPrepend(events[0], Fresh(next, events[1..]));
      assert forall e :: e in events[1..] ==> e in events;
    }
  }

  lemma {:induction false} FreshUntilTerminalFacts(last: int, events: seq<TaskEvent>)
    ensures StrictlyIncreasing(FreshUntilTerminal(last, events))
    ensures forall e :: e in FreshUntilTerminal(last, events) ==> e in events && last < e.seqNo
    decreases events
  {
    if events != [] {
      var next := if events[0].seqNo <= last then last else events[0].seqNo;
      FreshUntilTerminalFacts(next, events[1..]);
      IncreasingPrepend(events[0], FreshUntilTerminal(next, events[1..]));
      assert forall e :: e in events[1..] ==> e in events;
    }
  }

  lemma IncreasingPrepend(e: TaskEvent, rest: seq<TaskEvent>)
    requires StrictlyIncreasing(rest)
    ensures (forall x :: x in rest ==> e.seqNo < x.seqNo) ==> StrictlyIncreasing([e] + rest)
  {
    if forall x :: x in rest ==> e.seqNo < x.seqNo {
      var all := [e] + rest;
      forall i, j | 0 <= i < j < |all| ensures all[i].seqNo < all[j].seqNo {
        assert all[j] == rest[j - 1] && rest[j - 1] in rest;
      }
    }
  }

  lemma IncreasingConcat(a: seq<TaskEvent>, b: seq<TaskEvent>, bound: int)
    requires StrictlyIncreasing(a) && StrictlyIncreasing(b)
    requires (forall e :: e in a ==> e.seqNo <= bound) && (forall e :: e in b ==> bound < e.seqNo)
    ensures StrictlyIncreasing(a + b)
  {
    var all := a + b;
    forall i, j | 0 <= i < j < |all| ensures all[i].seqNo < all[j].seqNo {
      assert i < |a| ==> all[i] in a;
      assert j >= |a| ==> all[j] in b;
    }
  }

  lemma EmittedFacts(history: seq<TaskEvent>, received: seq<TaskEvent>)
    ensures StrictlyIncreasing(Emitted(history, received))
    ensures forall e :: e in Emitted(history, received) ==> e in history || e in received
    ensures Fresh(0, history) <= Emitted(history, received)
  {
    FreshFacts(0, history);
    FreshUntilTerminalFacts(LastSeq(0, history), received);
    IncreasingConcat(Fresh(0, history), FreshUntilTerminal(LastSeq(0, history), received), LastSeq(0, history));
  }

  /** Replaying any part of a numbered log from its start writes exactly that part. */
  lemma {:induction false} FreshOfLog(log: seq<TaskEvent>, from: nat)
    requires IsNumbered(log) && from <= |log|
    ensures Fresh(from, log[from..]) == log[from..] && LastSeq(from, log[from..]) == |log|
    decreases |log| - from
  {
    if from < |log| {
      assert log[from..][1..] == log[from + 1..];
      FreshOfLog(log, from + 1);
      assert log[from..] == [log[from]] + log[from + 1..];
    }
  }

  lemma ReplayOfPrefix(log: seq<TaskEvent>, n: nat)
    requires IsNumbered(log) && n <= |log|
    ensures Fresh(0, log[..n]) == log[..n] && LastSeq(0, log[..n]) == n
  {
    var part := log[..n];
    assert part[0..] == part;
    FreshOfLog(part, 0);
  }

  lemma HistoryWritten(log: seq<TaskEvent>, history: seq<TaskEvent>, received: seq<TaskEvent>)
    requires IsNumbered(log) && history <= log
    ensures history <= Emitted(history, received)
    ensures forall e :: e in history ==> e in log
  {
    assert history == log[..|history|];
    ReplayOfPrefix(log, |history|);
  }

  lemma WrittenFacts(y: System)
    requires Inv(y.base) && HandlerInv(y)
    ensures var log, written := EventsOf(y.base.db.events, y.taskId), Written(y.handler);
            && StrictlyIncreasing(written) && (forall e :: e in written ==> e in log)
            && (y.handler.Live? || y.handler.Finished? ==> y.handler.history <= written)
  {
    var log := EventsOf(y.base.db.events, y.taskId);
    LogIsNumbered(y.base.db.events, y.taskId);
    if y.handler.Replaying? {
      FreshFacts(0, y.handler.history[..y.handler.next]);
      assert forall e :: e in y.handler.history[..y.handler.next] ==> e in y.handler.history;
    } else if y.handler.Live? || y.handler.Finished? {
      EmittedFacts(y.handler.history, y.handler.received);
      HistoryWritten(log, y.handler.history, y.handler.received);
    }
    assert forall e :: e in History(y.handler) ==> e in log;
  }

  /** Safety of the stream, for every interleaving of appends, failures, other subscribers and the
      handler: what it writes is a selection from the log in log order, each event once and as
      committed; the replayed snapshot is written whole; and the handler's channel is never closed
      under it. */
  lemma StreamIsSafe(y: System, moves: seq<Move>)
    requires Inv(y.base) && y.handler.NotStarted? && LegalMoves(y, moves)
    ensures var y' := Reached(y, moves);
            && Selection(EventsOf(y'.base.db.events, y'.taskId), Written(y'.handler))
            && (y'.handler.Live? || y'.handler.Finished? ==> y'.handler.history <= Written(y'.handler))
            && (y'.handler.Registered? || y'.handler.Replaying? || y'.handler.Live? ==>
                  y'.handler.id in y'.base.channels && y'.base.channels[y'.handler.id].open)
  {
    MovesKeepInv(y, moves);
    WrittenIsSelection(Reached(y, moves));
    HandlerChannelOpen(Reached(y, moves));
  }

  lemma WrittenIsSelection(y: System)
    requires Inv(y.base) && HandlerInv(y)
    ensures Selection(EventsOf(y.base.db.events, y.taskId), Written(y.handler))
    ensures y.handler.Live? || y.handler.Finished? ==> y.handler.history <= Written(y.handler)
  {
    WrittenFacts(y);
    LogIsNumbered(y.base.db.events, y.taskId);
    MembersOfLog(EventsOf(y.base.db.events, y.taskId), Written(y.handler));
  }

  lemma HandlerChannelOpen(y: System)
    requires RegisteredInv(y.base) && (!y.handler.NotStarted? ==> Attached(y))
    ensures y.handler.Registered? || y.handler.Replaying? || y.handler.Live? ==>
              y.handler.id in y.base.channels && y.base.channels[y.handler.id].open
  {
  }

  // ---- When nothing is lost ----

  /** Where a stream over `log` stops that has replayed `h` events and heard of the first `n`: right
      after the first terminal event past the replay, if there is one. */
  function StreamEnd(log: seq<TaskEvent>, h: nat, n: nat): (end: nat)
    requires h <= |log| && n <= |log|
    ensures h <= end <= |log| && (n <= h ==> end == h) && (h <= n ==> end <= n)
    decreases n - h
  {
    if n <= h then h
    else if log[h].state.IsTerminal() then h + 1
    else StreamEnd(log, h + 1, n)
  }

  lemma {:induction false} StreamEndFacts(log: seq<TaskEvent>, h: nat, n: nat)
    requires h <= |log| && n <= |log|
    ensures var end := StreamEnd(log, h, n);
            && (forall i :: h <= i < end - 1 ==> !log[i].state.IsTerminal())
            && (end < n ==> h < end && log[end - 1].state.IsTerminal())
    decreases n - h
  {
    if h < n && !log[h].state.IsTerminal() {
      StreamEndFacts(log, h + 1, n);
    }
  }

  lemma {:induction false} LiveOverStretch(log: seq<TaskEvent>, h: nat, k: nat, n: nat)
    requires IsNumbered(log) && k <= h <= |log| && k <= n <= |log|
    ensures FreshUntilTerminal(h, log[k..n]) == log[h..StreamEnd(log, h, n)]
    decreases n - k
  {
    if k < n {
      assert log[k..n][1..] == log[k + 1..n];
      if k < h {
        LiveOverStretch(log, h, k + 1, n);
      } else if !log[h].state.IsTerminal() {
        LiveOverStretch(log, h + 1, k + 1, n);
      }
    }
  }

  /** How much of the log a stream has written that replayed `h` events and heard of the first `n`. */
  function WrittenEnd(log: seq<TaskEvent>, h: nat, n: nat): (end: nat)
    requires h <= |log| && n <= |log|
    ensures end <= |log|
  {
    if HasTerminal(log[..h]) then h else StreamEnd(log, h, n)
  }

  lemma JoinSlices(log: seq<TaskEvent>, h: nat, end: nat)
    requires h <= end <= |log|
    ensures log[..h] + log[h..end] == log[..end]
    ensures HasTerminal(log[h..end]) <==> exists i :: h <= i < end && log[i].state.IsTerminal()
  {
    var part := log[h..end];
    assert forall i :: 0 <= i < |part| ==> part[i] == log[h + i];
    assert forall i :: h <= i < end ==> log[i] == part[i - h];
  }

  lemma {:induction false} PastPrepend(h: int, e: TaskEvent, rest: seq<TaskEvent>)
    ensures Past(h, [e] + rest) == (if e.seqNo > h then [e] else []) + Past(h, rest)
  {
    if rest == [] {
      assert [e] + rest == [] + [e];
      PastAppend(h, [], e);
    } else {
      var front, last := rest[..|rest| - 1], rest[|rest| - 1];
      PastPrepend(h, e, front);
      assert [e] + rest == ([e] + front) + [last];
      PastAppend(h, [e] + front, last);
    }
  }

  lemma {:induction false} PastMembers(h: int, events: seq<TaskEvent>)
    ensures forall e :: e in Past(h, events) <==> e in events && e.seqNo > h
  {
    if events != [] {
      PastMembers(h, events[..|events| - 1]);
      assert events == events[..|events| - 1] + [events[|events| - 1]];
    }
  }

  /** Receptions that the snapshot already covers make no difference. */
  lemma {:induction false} StaleMakesNoDifference(h: int, last: int, events: seq<TaskEvent>)
    requires h <= last
    ensures FreshUntilTerminal(last, events) == FreshUntilTerminal(last, Past(h, events))
    decreases events
  {
    if events != [] {
      var e, rest := events[0], events[1..];
      assert events == [e] + rest;
      PastPrepend(h, e, rest);
      assert e.seqNo > h ==> ([e] + Past(h, rest))[1..] == Past(h, rest);
      assert [] + Past(h, rest) == Past(h, rest);
      StaleMakesNoDifference(h, if e.seqNo > last then e.seqNo else last, rest);
    }
  }

  /** A snapshot of `h` events and receptions that go on from there in the log's order, without a gap, are
      written as one prefix of the log. */
  lemma LosslessEmission(log: seq<TaskEvent>, h: nat, received: seq<TaskEvent>, n: nat)
    requires IsNumbered(log) && h <= n <= |log| && Past(h, received) == log[h..n]
    ensures Fresh(0, log[..h]) == log[..h] && LastSeq(0, log[..h]) == h
    ensures FreshUntilTerminal(h, received) == log[h..StreamEnd(log, h, n)]
    ensures Emitted(log[..h], received) == log[..WrittenEnd(log, h, n)]
  {
    ReplayOfPrefix(log, h);
    StaleMakesNoDifference(h, h, received);
    LiveOverStretch(log, h, h, n);
    JoinSlices(log, h, StreamEnd(log, h, n));
  }

  /** A stream that is not over has written everything it replayed or heard of. */
  lemma NotOverWroteAll(log: seq<TaskEvent>, h: nat, received: seq<TaskEvent>, n: nat)
    requires IsNumbered(log) && h <= n <= |log| && Past(h, received) == log[h..n]
    requires !Over(log[..h], received)
    ensures WrittenEnd(log, h, n) == n
  {
    LosslessEmission(log, h, received, n);
    StreamEndFacts(log, h, n);
    JoinSlices(log, h, StreamEnd(log, h, n));
  }

  /** A stream that is over stopped with its snapshot or right after the first terminal event past it. */
  lemma OverStoppedRight(log: seq<TaskEvent>, h: nat, received: seq<TaskEvent>, n: nat)
    requires IsNumbered(log) && h <= n <= |log| && Past(h, received) == log[h..n]
    requires Over(log[..h], received)
    ensures EndsRight(log, h, WrittenEnd(log, h, n))
  {
    LosslessEmission(log, h, received, n);
    if !HasTerminal(log[..h]) {
      EndsAtTerminal(log, h, n);
    }
  }

  lemma EndsAtTerminal(log: seq<TaskEvent>, h: nat, n: nat)
    requires h <= |log| && n <= |log| && !HasTerminal(log[..h]) && HasTerminal(log[h..StreamEnd(log, h, n)])
    ensures EndsRight(log, h, StreamEnd(log, h, n))
  {
    JoinSlices(log, h, StreamEnd(log, h, n));
    StreamEndFacts(log, h, n);
  }

  /** The right end of a finished stream that replayed `h` events: the end of its snapshot if that held
      a terminal event, else right after the first terminal event past it. */
  predicate EndsRight(log: seq<TaskEvent>, h: nat, end: nat)
    requires h <= |log|
  {
    if HasTerminal(log[..h]) then end == h
    else h < end <= |log| && log[end - 1].state.IsTerminal()
         && forall i :: h <= i < end - 1 ==> !log[i].state.IsTerminal()
  }

  lemma EmissionOutcome(log: seq<TaskEvent>, h: nat, received: seq<TaskEvent>, n: nat)
    requires IsNumbered(log) && h <= n <= |log| && Past(h, received) == log[h..n]
    ensures Emitted(log[..h], received) <= log
    ensures !Over(log[..h], received) ==> Emitted(log[..h], received) == log[..n]
    ensures Over(log[..h], received) ==> EndsRight(log, h, |Emitted(log[..h], received)|)
  {
    LosslessEmission(log, h, received, n);
    if Over(log[..h], received) {
      OverStoppedRight(log, h, received, n);
    } else {
      NotOverWroteAll(log, h, received, n);
    }
  }

  // ---- Runs in which the offers stay in order ----

  predicate Following(h: Handler) {
    h.Replaying? || h.Live?
  }

  /** From the snapshot until it has written its last frame, the handler's offers stay in order. */
  ghost predicate InOrderMove(y: System, m: Move)
    requires CanMove(y, m)
  {
    Following(y.handler) && m.Background? ==> InOrder(y.base, m.a, y.handler.id, y.taskId, |y.handler.history|)
  }

  ghost predicate InOrderMoves(y: System, moves: seq<Move>)
    requires LegalMoves(y, moves)
    decreases moves
  {
    moves == [] || (InOrderMove(y, moves[0]) && InOrderMoves(After(y, moves[0]), moves[1..]))
  }

  /** While it follows the log the handler misses nothing; when it has finished, what it had heard of went on
      from its snapshot without a gap. */
  ghost predicate JoinInv(y: System) {
    var log, h := EventsOf(y.base.db.events, y.taskId), y.handler;
    && (Following(h) ==> h.id in y.base.channels && Gapless(y.base, h.id, y.taskId, |h.history|))
    && (h.Finished? ==> exists n :: HeardUpTo(log, |h.history|, h.received, n))
  }

  ghost predicate HeardUpTo(log: seq<TaskEvent>, h: int, received: seq<TaskEvent>, n: int) {
    0 <= h <= n <= |log| && Past(h, received) == log[h..n]
  }

  lemma {:induction false} PastOfPrefix(h: int, part: seq<TaskEvent>, events: seq<TaskEvent>)
    requires part <= events
    ensures Past(h, part) <= Past(h, events)
    decreases |events|
  {
    if part != events {
      PastOfPrefix(h, part, events[..|events| - 1]);
    }
  }

  /** What a handler that misses nothing has heard of so far. */
  lemma FollowerHeard(y: System) returns (n: nat)
    requires !y.handler.NotStarted? && !y.handler.Registered? && Fifo(y) && Gapless(y.base, y.handler.id, y.taskId, |y.handler.history|)
    ensures HeardUpTo(EventsOf(y.base.db.events, y.taskId), |y.handler.history|, y.handler.received, n)
  {
    hide OneOwer, Owes;
    var log, h, received := EventsOf(y.base.db.events, y.taskId), |y.handler.history|, y.handler.received;
    var accepted := y.base.channels[y.handler.id].accepted;
    var ower :| GaplessWith(y.base, y.handler.id, y.taskId, h, ower);
    PastOfPrefix(h, received, accepted);
    n := h + |Past(h, received)|;
    assert log[h..][..n - h] == log[h..n];
  }

  /** A handler that has caught up: its queue is empty and no event past its snapshot is on its way. */
  ghost predicate CaughtUp(y: System)
    requires !y.handler.NotStarted? && y.handler.id in y.base.channels
  {
    && y.base.channels[y.handler.id].queue == []
    && forall w: nat :: !Owes(y.base, w, y.handler.id, y.taskId, |History(y.handler)|)
  }

  lemma CaughtUpHeardAll(y: System)
    requires y.handler.Live? && Fifo(y) && Gapless(y.base, y.handler.id, y.taskId, |y.handler.history|) && CaughtUp(y)
    ensures HeardUpTo(EventsOf(y.base.db.events, y.taskId), |y.handler.history|, y.handler.received, |EventsOf(y.base.db.events, y.taskId)|)
  {
    var log, received := EventsOf(y.base.db.events, y.taskId), y.handler.received;
    assert History(y.handler) == y.handler.history;
    var ower :| GaplessWith(y.base, y.handler.id, y.taskId, |y.handler.history|, ower);
    forall w: nat ensures ower != Some(w) {
      assert !Owes(y.base, w, y.handler.id, y.taskId, |y.handler.history|);
    }
    assert received + [] == received;
    assert log[|y.handler.history|..] == log[|y.handler.history|..|log|];
  }

  lemma HeardInLonger(log: seq<TaskEvent>, longer: seq<TaskEvent>, h: int, received: seq<TaskEvent>, n: int)
    requires HeardUpTo(log, h, received, n) && log <= longer
    ensures HeardUpTo(longer, h, received, n)
  {
    assert longer[h..n] == log[h..n];
  }

  lemma BackgroundKeepsJoined(y: System, a: Action)
    requires Inv(y.base) && HandlerInv(y) && JoinInv(y) && CanMove(y, Background(a)) && InOrderMove(y, Background(a))
    ensures JoinInv(After(y, Background(a)))
  {
    hide InOrder, Gapless, HeardUpTo, HandlerInv, LogInv, RegisteredInv;
    var log, log' := EventsOf(y.base.db.events, y.taskId), EventsOf(Do(y.base, a).db.events, y.taskId);
    if Following(y.handler) {
      FollowerRegistered(y);
      GaplessKept(y.base, a, y.handler.id, y.taskId, |y.handler.history|);
    } else if y.handler.Finished? {
      LogGrows(y.base, a, y.taskId);
      var n :| HeardUpTo(log, |y.handler.history|, y.handler.received, n);
      HeardInLonger(log, log', |y.handler.history|, y.handler.received, n);
    }
  }

  lemma FollowerRegistered(y: System)
    requires HandlerInv(y) && Following(y.handler)
    ensures y.handler.id in y.base.subscribers && y.base.subscribers[y.handler.id] == y.taskId
  {
  }

  lemma SnapshotJoins(y: System, rows: seq<TaskEvent>)
    requires Inv(y.base) && HandlerInv(y) && CanMove(y, Snapshot(rows))
    ensures JoinInv(After(y, Snapshot(rows)))
  {
    ListingIsLog(y.base.db.events, y.taskId, rows);
    GaplessAtEnd(y.base, y.handler.id, y.taskId);
  }

  /** A move of the handler itself that leaves it following. */
  lemma OwnMoveKeepsGapless(y: System, m: Move)
    requires CanMove(y, m) && !m.Background? && Following(y.handler) && Following(After(y, m).handler)
    requires y.handler.id in y.base.channels && Gapless(y.base, y.handler.id, y.taskId, |y.handler.history|)
    ensures After(y, m).handler.id in After(y, m).base.channels
    ensures Gapless(After(y, m).base, After(y, m).handler.id, y.taskId, |After(y, m).handler.history|)
  {
    var y', h := After(y, m), |y.handler.history|;
    OwnMoveEffect(y, m);
    var ower :| GaplessWith(y.base, y.handler.id, y.taskId, h, ower);
    ReceiveKeepsGapless(y.base, y'.base, y.handler.id, y.taskId, h, ower);
  }

  lemma ReceiveKeepsGapless(s: State, s': State, id: nat, taskId: string, h: int, ower: Option<nat>)
    requires id in s.channels && GaplessWith(s, id, taskId, h, ower)
    requires s' == s || (Enabled(s, Receive(id)) && s' == Do(s, Receive(id)))
    ensures id in s'.channels && GaplessWith(s', id, taskId, h, ower)
  {
    assert forall w :: PhaseOf(s', w) == PhaseOf(s, w);
    assert forall w: nat :: Owes(s', w, id, taskId, h) == Owes(s, w, id, taskId, h);
  }

  lemma OwnMoveEffect(y: System, m: Move)
    requires CanMove(y, m) && !m.Background? && !m.Open?
    ensures var y' := After(y, m);
            && y'.taskId == y.taskId && y'.handler.id == y.handler.id
            && !y'.handler.NotStarted? && !y'.handler.Registered?
            && (y'.base == y.base || (QueueReady(y) && y'.base == Do(y.base, Receive(y.handler.id))))
            && y'.base.db == y.base.db
            && History(y'.handler) == if m.Snapshot? then m.rows else History(y.handler)
  {
  }

  /** A move that ends the stream: what it had heard of stands. */
  lemma FinishingJoins(y: System, m: Move)
    requires HandlerInv(y) && CanMove(y, m) && Following(y.handler) && After(y, m).handler.Finished? && HandlerInv(After(y, m))
    requires y.handler.id in y.base.channels && Gapless(y.base, y.handler.id, y.taskId, |y.handler.history|)
    ensures JoinInv(After(y, m))
  {
    var y', h := After(y, m), |y.handler.history|;
    OwnMoveEffect(y, m);
    var ower :| GaplessWith(y.base, y.handler.id, y.taskId, h, ower);
    ReceiveKeepsGapless(y.base, y'.base, y.handler.id, y.taskId, h, ower);
    var n := FollowerHeard(y');
  }

  lemma InOrderMoveKeepsJoined(y: System, m: Move)
    requires Inv(y.base) && HandlerInv(y) && JoinInv(y) && CanMove(y, m) && InOrderMove(y, m) && HandlerInv(After(y, m))
    ensures JoinInv(After(y, m))
  {
    hide Inv, HandlerInv, Gapless, InOrder, HeardUpTo;
    match m
    case Background(a) => BackgroundKeepsJoined(y, a);
    case Open =>
    case Snapshot(rows) => SnapshotJoins(y, rows);
    case _ =>
      if Following(After(y, m).handler) {
        OwnMoveKeepsGapless(y, m);
      } else {
        FinishingJoins(y, m);
      }
  }

  lemma {:induction false} InOrderMovesKeepJoined(y: System, moves: seq<Move>)
    requires Inv(y.base) && HandlerInv(y) && JoinInv(y) && LegalMoves(y, moves) && InOrderMoves(y, moves)
    ensures Inv(Reached(y, moves).base) && HandlerInv(Reached(y, moves)) && JoinInv(Reached(y, moves))
    decreases moves
  {
    hide Inv, HandlerInv, JoinInv, After, CanMove, InOrderMove;
    if moves != [] {
      MoveKeepsInv(y, moves[0]);
      MoveKeepsHandlerInv(y, moves[0]);
      InOrderMoveKeepsJoined(y, moves[0]);
      InOrderMovesKeepJoined(After(y, moves[0]), moves[1..]);
    }
  }

  lemma NotStartedJoined(y: System)
    requires y.handler.NotStarted?
    ensures HandlerInv(y) && JoinInv(y)
  {
  }

  /** Losslessness, for every run in which the handler's offers stay in order and its 32-slot queue has
      room, with any overlap of reads, rollbacks, other tasks and other subscribers: at every moment what
      was written is a prefix of the log, without a gap; a live stream that has caught up has written the
      whole log; and a stream that ended by itself ended with its snapshot, if that held a terminal event,
      or else right after the first terminal event past it. */
  lemma StreamIsLossless(y: System, moves: seq<Move>)
    requires Inv(y.base) && y.handler.NotStarted? && LegalMoves(y, moves) && InOrderMoves(y, moves)
    ensures var y' := Reached(y, moves);
            var log, written := EventsOf(y'.base.db.events, y'.taskId), Written(y'.handler);
            && written <= log
            && (y'.handler.Live? && y'.handler.id in y'.base.channels && CaughtUp(y') ==> written == log)
            && (y'.handler.Finished? && Over(y'.handler.history, y'.handler.received) ==>
                  |y'.handler.history| <= |log| && EndsRight(log, |y'.handler.history|, |written|))
  {
    hide Inv, HandlerInv, JoinInv, CaughtUp, EndsRight, Over;
    NotStartedJoined(y);
    InOrderMovesKeepJoined(y, moves);
    WrittenIsPrefix(Reached(y, moves));
  }

  lemma ReplayIsPrefix(y: System)
    requires Inv(y.base) && SnapshotIsPrefix(y) && y.handler.Replaying?
    ensures Written(y.handler) <= EventsOf(y.base.db.events, y.taskId)
  {
    LogIsNumbered(y.base.db.events, y.taskId);
    var log, next := EventsOf(y.base.db.events, y.taskId), y.handler.next;
    assert y.handler.history[..next] == log[..next];
    ReplayOfPrefix(log, next);
  }

  lemma HistoryIsPrefix(y: System)
    requires Inv(y.base) && HandlerInv(y)
    ensures IsNumbered(EventsOf(y.base.db.events, y.taskId))
    ensures !y.handler.NotStarted? && !y.handler.Registered? ==>
              |y.handler.history| <= |EventsOf(y.base.db.events, y.taskId)|
              && y.handler.history == EventsOf(y.base.db.events, y.taskId)[..|y.handler.history|]
    ensures y.handler.Live? ==> !Over(y.handler.history, y.handler.received)
    ensures y.handler.Replaying? ==> SnapshotIsPrefix(y)
    ensures !y.handler.NotStarted? ==> Fifo(y)
  {
    LogIsNumbered(y.base.db.events, y.taskId);
  }

  lemma WrittenIsPrefix(y: System)
    requires Inv(y.base) && HandlerInv(y) && JoinInv(y)
    ensures Written(y.handler) <= EventsOf(y.base.db.events, y.taskId)
    ensures y.handler.Live? && y.handler.id in y.base.channels && CaughtUp(y)
            ==> Written(y.handler) == EventsOf(y.base.db.events, y.taskId)
    ensures y.handler.Finished? && Over(y.handler.history, y.handler.received) ==>
              && |y.handler.history| <= |EventsOf(y.base.db.events, y.taskId)|
              && EndsRight(EventsOf(y.base.db.events, y.taskId), |y.handler.history|, |Written(y.handler)|)
  {
    hide Inv, HandlerInv, CaughtUp, EndsRight, Over, Gapless, Emitted;
    HistoryIsPrefix(y);
    var log := EventsOf(y.base.db.events, y.taskId);
    match y.handler
    case NotStarted =>
    case Registered(_) =>
    case Replaying(_, _, _, _) => ReplayIsPrefix(y);
    case Live(_, history, received) =>
      var n := FollowerHeard(y);
      EmissionOutcome(log, |history|, received, n);
      if CaughtUp(y) {
        CaughtUpHeardAll(y);
        EmissionOutcome(log, |history|, received, |log|);
        assert log[..|log|] == log;
      }
    case Finished(_, history, received) =>
      var n :| HeardUpTo(log, |history|, received, n);
      EmissionOutcome(log, |history|, received, n);
  }

  // ---- And only then ----

  lemma {:induction false} PastAll(h: int, events: seq<TaskEvent>)
    requires forall e :: e in events ==> e.seqNo > h
    ensures Past(h, events) == events
  {
    if events != [] {
      PastAll(h, events[..|events| - 1]);
    }
  }

  /** The first of some distinct log events past `h`, when it is the next one of the log. */
  lemma NextOfLog(log: seq<TaskEvent>, h: nat, p: seq<TaskEvent>)
    requires IsNumbered(log) && h < |log| && p != [] && p[0] == log[h] && NoDup(p)
    requires forall e :: e in p ==> e in log && e.seqNo > h
    ensures NoDup(p[1..]) && forall e :: e in p[1..] ==> e in log && e.seqNo > h + 1
  {
    var rest := p[1..];
    assert forall i :: 0 <= i < |rest| ==> rest[i] == p[i + 1];
    forall e | e in rest ensures e in log && e.seqNo > h + 1 {
      assert e in p;
      var k :| 0 <= k < |log| && log[k] == e;
      assert e != p[0];
    }
  }

  lemma {:induction false} PastOfLog(log: seq<TaskEvent>, h: nat, p: seq<TaskEvent>)
    requires IsNumbered(log) && h <= |log| && (forall e :: e in p ==> e in log && e.seqNo > h) && NoDup(p)
    requires FreshUntilTerminal(h, p) == log[h..]
    ensures p == log[h..]
    decreases |p|
  {
    if p != [] {
      assert p[0] in p;
      assert log[h..][0] == p[0];
      NextOfLog(log, h, p);
      if p[0].state.IsTerminal() {
        NumbersEndWithLog(log, p[1..]);
        PastAll(|log|, p[1..]);
      } else {
        assert log[h + 1..] == log[h..][1..];
        PastOfLog(log, h + 1, p[1..]);
      }
    }
  }

  lemma {:induction false} PastNoDup(h: int, events: seq<TaskEvent>)
    requires NoDup(events)
    ensures NoDup(Past(h, events))
  {
    if events != [] {
      var front, last := events[..|events| - 1], events[|events| - 1];
      PastNoDup(h, front);
      PastMembers(h, front);
      assert last !in front by {
        assert forall i :: 0 <= i < |front| ==> front[i] == events[i];
      }
      NoDupAppend(Past(h, front), last);
    }
  }

  /** Over a snapshot of `h` events, receptions without duplicates make a live stream write the whole log
      exactly when past the snapshot they are the rest of the log, in its order and with none missing. */
  lemma WholeLogExactly(log: seq<TaskEvent>, h: nat, received: seq<TaskEvent>)
    requires IsNumbered(log) && h <= |log| && NoDup(received) && (forall e :: e in received ==> e in log)
    requires !Over(log[..h], received)
    ensures Emitted(log[..h], received) == log <==> Past(h, received) == log[h..]
  {
    ReplayOfPrefix(log, h);
    StaleMakesNoDifference(h, h, received);
    if Past(h, received) == log[h..] {
      assert log[h..|log|] == log[h..];
      EmissionOutcome(log, h, received, |log|);
      assert log[..|log|] == log;
    }
    if Emitted(log[..h], received) == log {
      assert log[..h] + FreshUntilTerminal(h, received) == log;
      assert FreshUntilTerminal(h, received) == log[h..];
      PastMembers(h, received);
      PastNoDup(h, received);
      PastOfLog(log, h, Past(h, received));
    }
  }

  lemma {:induction false} MovesKeepOnce(y: System, moves: seq<Move>)
    requires Inv(y.base) && OnceInv(y.base) && LegalMoves(y, moves)
    ensures OnceInv(Reached(y, moves).base)
    decreases moves
  {
    hide Inv, OnceInv, CanMove, Do, Enabled;
    if moves != [] {
      MoveKeepsInv(y, moves[0]);
      MoveKeepsOnce(y, moves[0]);
      MovesKeepOnce(After(y, moves[0]), moves[1..]);
    }
  }

  lemma MoveKeepsOnce(y: System, m: Move)
    requires Inv(y.base) && OnceInv(y.base) && CanMove(y, m)
    ensures OnceInv(After(y, m).base)
  {
    hide Inv, OnceInv;
    if After(y, m).base != y.base {
      OnceKept(y.base, BaseAction(y, m));
    }
  }

  /** Exactly when a live stream has written the whole log, in every run from a fresh node whatever its
      appends do: once its queue is empty, it has done so if and only if what it took in past its snapshot
      is the rest of the log, in number order and with none missing. */
  lemma LosslessExactly(y: System, moves: seq<Move>)
    requires Booted(y.base) && y.handler.NotStarted? && LegalMoves(y, moves)
    ensures var y' := Reached(y, moves);
            var log, h := EventsOf(y'.base.db.events, y'.taskId), |History(y'.handler)|;
            y'.handler.Live? && y'.handler.id in y'.base.channels && y'.base.channels[y'.handler.id].queue == [] ==>
              h <= |log| && (Written(y'.handler) == log <==> Past(h, y'.base.channels[y'.handler.id].accepted) == log[h..])
  {
    hide Inv, OnceInv, HandlerInv, Booted;
    BootedIsReady(y.base, y.taskId);
    NotStartedJoined(y);
    MovesKeepInv(y, moves);
    MovesKeepOnce(y, moves);
    LiveWroteAllExactly(Reached(y, moves));
  }

  lemma LiveWroteAllExactly(y: System)
    requires Inv(y.base) && OnceInv(y.base) && HandlerInv(y)
    ensures var log, h := EventsOf(y.base.db.events, y.taskId), |History(y.handler)|;
            y.handler.Live? && y.handler.id in y.base.channels && y.base.channels[y.handler.id].queue == [] ==>
              h <= |log| && (Written(y.handler) == log <==> Past(h, y.base.channels[y.handler.id].accepted) == log[h..])
  {
    var log := EventsOf(y.base.db.events, y.taskId);
    HistoryIsPrefix(y);
    if y.handler.Live? && y.base.channels[y.handler.id].queue == [] {
      var c := y.base.channels[y.handler.id];
      assert y.handler.received + [] == y.handler.received;
      assert c.accepted == y.handler.received;
      assert ChannelInv(c);
      SubsequenceNoDup(c.accepted, c.offered);
      WholeLogExactly(log, |y.handler.history|, y.handler.received);
    }
  }

  // ---- Appends that do not overlap ----

  ghost predicate SerialMoves(y: System, moves: seq<Move>)
    requires LegalMoves(y, moves)
    decreases moves
  {
    moves == [] || ((moves[0].Background? ==> Serial(y.base, moves[0].a, y.taskId))
                    && SerialMoves(After(y, moves[0]), moves[1..]))
  }

  /** How many events were dropped on a full queue on their way to the handler. */
  function Dropped(y: System): int {
    if y.handler.NotStarted? || y.handler.id !in y.base.channels then 0
    else |y.base.channels[y.handler.id].offered| - |y.base.channels[y.handler.id].accepted|
  }

  lemma DropsNeverHeal(s: State, a: Action, id: nat)
    requires Enabled(s, a) && id in s.channels && (forall k :: k in s.channels ==> k < s.nextId)
    ensures id in Do(s, a).channels
    ensures |Do(s, a).channels[id].offered| - |Do(s, a).channels[id].accepted| >= |s.channels[id].offered| - |s.channels[id].accepted|
    ensures a.SendTo? && a.id == id && RegisteredInv(s) && id in s.subscribers && s.subscribers[id] == PhaseOf(s, a.w).e.taskId
            && |s.channels[id].queue| >= QueueCapacity
            ==> |Do(s, a).channels[id].offered| - |Do(s, a).channels[id].accepted| > |s.channels[id].offered| - |s.channels[id].accepted|
  {
    assert id in Do(s, a).channels;
    ChannelMoves(s, a, id);
  }

  lemma DroppedGrows(y: System, m: Move)
    requires Inv(y.base) && HandlerInv(y) && CanMove(y, m)
    ensures Dropped(After(y, m)) >= Dropped(y)
  {
    hide LogInv, QueuesInv, OfferInv, ReceivedIsLogged, SnapshotIsPrefix;
    if !y.handler.NotStarted? && After(y, m).base != y.base {
      DropsNeverHeal(y.base, BaseAction(y, m), y.handler.id);
    }
  }

  /** A send to the handler finds room, or is of another task. */
  lemma RoomOrOther(y: System, a: Action)
    requires RegisteredInv(y.base) && HandlerInv(y) && CanMove(y, Background(a)) && Following(y.handler)
    requires Dropped(After(y, Background(a))) <= Dropped(y)
    ensures a != Unsubscribe(y.handler.id)
    ensures a.SendTo? && a.id == y.handler.id && PhaseOf(y.base, a.w).e.taskId == y.taskId
            ==> |y.base.channels[y.handler.id].queue| < QueueCapacity
  {
    FollowerRegistered(y);
    DropsNeverHeal(y.base, a, y.handler.id);
  }

  lemma {:induction false} DroppedNever(y: System, moves: seq<Move>)
    requires Inv(y.base) && HandlerInv(y) && LegalMoves(y, moves)
    ensures Dropped(y) <= Dropped(Reached(y, moves))
    decreases moves
  {
    hide Inv, HandlerInv, CanMove, After, Dropped;
    if moves != [] {
      MoveKeepsInv(y, moves[0]);
      MoveKeepsHandlerInv(y, moves[0]);
      DroppedGrows(y, moves[0]);
      DroppedNever(After(y, moves[0]), moves[1..]);
    }
  }

  lemma NothingNegative(y: System)
    requires Inv(y.base) && HandlerInv(y)
    ensures Dropped(y) >= 0
  {
    if !y.handler.NotStarted? {
      assert ChannelInv(y.base.channels[y.handler.id]);
      SubsequenceLength(y.base.channels[y.handler.id].accepted, y.base.channels[y.handler.id].offered);
    }
  }

  lemma SerialMoveIsInOrder(y: System, m: Move)
    requires Inv(y.base) && HandlerInv(y) && OneAppender(y.base, y.taskId) && CanMove(y, m)
    requires m.Background? ==> Serial(y.base, m.a, y.taskId)
    requires Dropped(After(y, m)) <= Dropped(y)
    ensures InOrderMove(y, m) && OneAppender(After(y, m).base, y.taskId)
  {
    if After(y, m).base != y.base {
      OneAppenderKept(y.base, BaseAction(y, m), y.taskId);
    }
    if Following(y.handler) && m.Background? {
      DropsNeverHeal(y.base, m.a, y.handler.id);
      FollowerRegistered(y);
      RoomOrOther(y, m.a);
      SerialIsInOrder(y.base, m.a, y.handler.id, y.taskId, |y.handler.history|);
    }
  }

  lemma {:induction false} SerialMovesAreInOrder(y: System, moves: seq<Move>)
    requires Inv(y.base) && HandlerInv(y) && OneAppender(y.base, y.taskId)
    requires LegalMoves(y, moves) && SerialMoves(y, moves) && Dropped(y) == 0 && Dropped(Reached(y, moves)) == 0
    ensures InOrderMoves(y, moves)
    decreases moves
  {
    hide Inv, HandlerInv, OneAppender, CanMove, Dropped, InOrderMove, Serial;
    if moves != [] {
      var next := After(y, moves[0]);
      MoveKeepsInv(y, moves[0]);
      MoveKeepsHandlerInv(y, moves[0]);
      DroppedGrows(y, moves[0]);
      DroppedNever(next, moves[1..]);
      SerialMoveIsInOrder(y, moves[0]);
      assert next.taskId == y.taskId;
      SerialMovesAreInOrder(next, moves[1..]);
    }
  }

  /** A special case that needs no look at the subscriber: appends to the task that do not overlap, with
      turn updates that succeed and nothing dropped on the way to the handler, keep its offers in order. */
  lemma SerialStreamIsLossless(y: System, moves: seq<Move>)
    requires Inv(y.base) && OneAppender(y.base, y.taskId) && y.handler.NotStarted?
    requires LegalMoves(y, moves) && SerialMoves(y, moves) && Dropped(Reached(y, moves)) == 0
    ensures InOrderMoves(y, moves) && Written(Reached(y, moves).handler) <= EventsOf(Reached(y, moves).base.db.events, y.taskId)
  {
    NotStartedJoined(y);
    SerialMovesAreInOrder(y, moves);
    StreamIsLossless(y, moves);
    TaskStays(y, moves);
  }

  lemma {:induction false} TaskStays(y: System, moves: seq<Move>)
    requires LegalMoves(y, moves)
    ensures Reached(y, moves).taskId == y.taskId
    decreases moves
  {
    if moves != [] {
      TaskStays(After(y, moves[0]), moves[1..]);
    }
  }
}
