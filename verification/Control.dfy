/** Cancel and resume requests beside the goroutine that runs a task. A request reads the task's row, looks
    at its status, asks the adapter, and only then appends an event that carries the status it read. */
module Control {
  import opened TaskTypes
  import opened EventStore
  import opened AppendProtocol
  import opened Orchestrator

  datatype Request = Cancel | Resume

  /** The guard that follows the read: cancel returns early on a finished task, resume wants one that
      awaits input. */
  predicate Accepts(request: Request, status: TaskStatus) {
    match request
    case Cancel => !status.IsTerminal()
    case Resume => status == AwaitingInput
  }

  function KindOf(request: Request): EventKind {
    if request.Cancel? then TaskCancelRequested else TaskResumeRequested
  }

  function MessageOf(request: Request): string {
    if request.Cancel? then "Cancel requested" else "Resume requested"
  }

  /** What a request appends once the adapter has agreed. */
  function ControlDraft(taskId: string, request: Request, status: TaskStatus, handle: Handle, payload: JsonMap): Mutation {
    Mutation(TaskEvent(taskId, 0, KindOf(request), status, FromApi, MessageOf(request), payload), Some(handle), None, "")
  }

  predicate IsControlDraft(m: Mutation, request: Request, status: TaskStatus) {
    m.remote.Some? && m == ControlDraft(m.event.taskId, request, status, m.remote.value, m.event.data)
  }

  /** What a request learned from the row, and how many events the task's log held then. */
  datatype Reading = Reading(request: Request, status: TaskStatus, at: nat)

  /** The task, and the goroutine that creates and runs it; every other actor is a request. */
  datatype Task = Task(id: string, owner: nat)

  /** `ended`: the owner has tried to append a terminal event. `readings` are the requests that have passed
      their guard. `origins` is history: for each event the log gained since the start, the reading behind
      it, or none for an event of the owner. */
  datatype Scene = Scene(core: State, ended: bool, readings: map<nat, Reading>, origins: seq<Option<Reading>>)

  datatype Move =
    | Create(row: TaskRow)
    | ReadRow(w: nat, request: Request)
    | GiveUp(w: nat)
    | Step(a: Action)

  function Log(t: Task, s: Scene): seq<TaskEvent> {
    EventsOf(s.core.db.events, t.id)
  }

  /** The state a log ends in; a row is inserted as created. */
  function Said(log: seq<TaskEvent>): TaskStatus {
    if log == [] then Created else log[|log| - 1].state
  }

  predicate IsEnded(t: Task, s: Scene) {
    t.id in s.core.db.tasks && s.core.db.tasks[t.id].status.IsTerminal()
  }

  /** Who may begin an append: to the task, its owner, who says nothing but a terminal state after it has tried
      to end the task, and a request that holds a reading, which appends nothing else; to other tasks,
      anybody. */
  predicate MayAppend(t: Task, s: Scene, w: nat, draft: Mutation) {
    if w in s.readings then
      draft.event.taskId == t.id && IsControlDraft(draft, s.readings[w].request, s.readings[w].status)
    else
      draft.event.taskId == t.id ==>
        t.id in s.core.db.tasks && w == t.owner && (s.ended ==> draft.event.state.IsTerminal())
  }

  predicate Can(t: Task, s: Scene, m: Move) {
    match m
    case Create(row) => t.id !in s.core.db.tasks && row.status == Created
    case ReadRow(w, request) =>
      && w != t.owner && w !in s.readings && PhaseOf(s.core, w).Idle?
      && t.id in s.core.db.tasks && Accepts(request, s.core.db.tasks[t.id].status)
    case GiveUp(w) => w in s.readings && PhaseOf(s.core, w).Idle?
    case Step(a) => Enabled(s.core, a) && (a.ReadSeq? ==> MayAppend(t, s, a.w, a.draft))
  }

  /** An appender that has its number for this task and waits for its transaction. */
  predicate Waits(t: Task, s: Scene, w: nat) {
    PhaseOf(s.core, w).SeqRead? && PhaseOf(s.core, w).m.event.taskId == t.id
  }

  /** The append that a transaction step decides is one to this task. */
  predicate Decides(t: Task, s: Scene, a: Action) {
    a.StoreEvent? && Waits(t, s, a.w)
  }

  function After(t: Task, s: Scene, m: Move): Scene
    requires Can(t, s, m)
  {
    match m
    case Create(row) => s.(core := s.core.(db := s.core.db.(tasks := s.core.db.tasks[t.id := row])))
    case ReadRow(w, request) =>
      s.(readings := s.readings[w := Reading(request, s.core.db.tasks[t.id].status, |Log(t, s)|)])
    case GiveUp(w) => s.(readings := s.readings - {w})
    case Step(a) =>
      var core := Do(s.core, a);
      if a.ReadSeq? && a.w == t.owner && a.draft.event.taskId == t.id && a.draft.event.state.IsTerminal()
      then s.(core := core, ended := true)
      else if Decides(t, s, a) then
        Scene(core, s.ended, s.readings - {a.w},
              if core.db == s.core.db then s.origins
              else s.origins + [if a.w != t.owner && a.w in s.readings then Some(s.readings[a.w]) else None])
      else s.(core := core)
  }

  ghost predicate LegalMoves(t: Task, s: Scene, moves: seq<Move>)
    decreases moves
  {
    moves == [] || (Can(t, s, moves[0]) && LegalMoves(t, After(t, s, moves[0]), moves[1..]))
  }

  function Reached(t: Task, s: Scene, moves: seq<Move>): Scene
    requires LegalMoves(t, s, moves)
    decreases moves
  {
    if moves == [] then s else Reached(t, After(t, s, moves[0]), moves[1..])
  }

  // ---- What every run keeps ----

  /** The row says what its log ends in, and a task without a row has no events. */
  ghost predicate RowInv(t: Task, s: Scene) {
    if t.id in s.core.db.tasks then s.core.db.tasks[t.id].status == Said(Log(t, s)) else Log(t, s) == []
  }

  /** A reading is what the log said after its first `at` events. */
  predicate ReadingHolds(log: seq<TaskEvent>, base: int, r: Reading) {
    base <= r.at <= |log| && r.status == Said(log[..r.at]) && !r.status.IsTerminal()
  }

  /** The length of the log when the run began. */
  function Base(t: Task, s: Scene): int {
    |Log(t, s)| - |s.origins|
  }

  ghost predicate ReadingsInv(t: Task, s: Scene) {
    && t.owner !in s.readings
    && forall w :: w in s.readings ==> ReadingHolds(Log(t, s), Base(t, s), s.readings[w])
  }

  /** What an append to the task carries, and what a request is busy with. */
  predicate Flies(t: Task, s: Scene, w: nat) {
    && (Waits(t, s, w) ==>
          && t.id in s.core.db.tasks
          && (if w == t.owner then s.ended <==> PhaseOf(s.core, w).m.event.state.IsTerminal()
              else w in s.readings && PhaseOf(s.core, w).m.event.state == s.readings[w].status))
    && (w in s.readings ==> t.id in s.core.db.tasks && (PhaseOf(s.core, w).Idle? || Waits(t, s, w)))
  }

  ghost predicate FlightInv(t: Task, s: Scene) {
    forall w: nat :: Flies(t, s, w)
  }

  /** Some event at `base - 1` or later, and before `n`, is terminal. */
  predicate EndedBefore(log: seq<TaskEvent>, base: int, n: int) {
    exists k :: 0 <= k < n && base - 1 <= k < |log| && log[k].state.IsTerminal()
  }

  /** The event at `j` is what its origin allows. */
  ghost predicate OriginHolds(log: seq<TaskEvent>, base: int, j: int, origin: Option<Reading>)
    requires 0 <= j < |log|
  {
    match origin
    case None => EndedBefore(log, base, j) ==> log[j].state.IsTerminal()
    case Some(r) => r.at <= j && ReadingHolds(log, base, r) && log[j].state == r.status
  }

  ghost predicate OriginsInv(t: Task, s: Scene) {
    && 0 <= Base(t, s)
    && (EndedBefore(Log(t, s), Base(t, s), |Log(t, s)|) ==> s.ended)
    && forall i :: 0 <= i < |s.origins| ==> OriginHolds(Log(t, s), Base(t, s), Base(t, s) + i, s.origins[i])
  }

  ghost predicate SceneInv(t: Task, s: Scene) {
    RowInv(t, s) && ReadingsInv(t, s) && FlightInv(t, s) && OriginsInv(t, s)
  }

  /** Where runs begin: no request has read the row, nobody is appending to the task, and if the row is
      terminal its owner is through with it. This covers a task that does not exist yet, and every task of
      an earlier process, finished or not. */
  ghost predicate Begins(t: Task, s: Scene) {
    && RowInv(t, s) && s.readings == map[] && s.origins == []
    && (IsEnded(t, s) ==> s.ended)
    && forall w: nat :: !Waits(t, s, w)
  }

  lemma BeginsMeansInv(t: Task, s: Scene)
    requires Begins(t, s)
    ensures SceneInv(t, s)
  {
    if EndedBefore(Log(t, s), Base(t, s), |Log(t, s)|) {
      assert Said(Log(t, s)).IsTerminal();
    }
  }

  /** A commit to the task is the one way its log or its row changes in a step. */
  lemma Commit(t: Task, s: Scene, a: Action)
    requires Can(t, s, Step(a)) && FlightInv(t, s)
    ensures var s' := After(t, s, Step(a));
            if Decides(t, s, a) && s'.core.db != s.core.db
            then var e := PhaseOf(s.core, a.w).m.event;
                 && Log(t, s') == Log(t, s) + [e] && t.id in s.core.db.tasks && t.id in s'.core.db.tasks
                 && s'.core.db.tasks[t.id].status == e.state && |s'.origins| == |s.origins| + 1
                 && s'.origins[..|s.origins|] == s.origins
            else && Log(t, s') == Log(t, s) && s'.origins == s.origins
                 && (t.id in s'.core.db.tasks <==> t.id in s.core.db.tasks)
                 && (t.id in s.core.db.tasks ==> s'.core.db.tasks[t.id] == s.core.db.tasks[t.id])
  {
    if a.StoreEvent? {
      assert Flies(t, s, a.w);
      StoreCommits(t, s, a);
    } else {
      OnlyStoresCommit(s.core, a);
      hide Do, Enabled, EventsOf;
    }
  }

  lemma StoreCommits(t: Task, s: Scene, a: Action)
    requires a.StoreEvent? && Can(t, s, Step(a)) && Flies(t, s, a.w)
    ensures var s' := After(t, s, Step(a));
            if Decides(t, s, a) && s'.core.db != s.core.db
            then var e := PhaseOf(s.core, a.w).m.event;
                 && Log(t, s') == Log(t, s) + [e] && t.id in s.core.db.tasks && t.id in s'.core.db.tasks
                 && s'.core.db.tasks[t.id].status == e.state && |s'.origins| == |s.origins| + 1
                 && s'.origins[..|s.origins|] == s.origins
            else && Log(t, s') == Log(t, s) && s'.origins == s.origins
                 && (t.id in s'.core.db.tasks <==> t.id in s.core.db.tasks)
                 && (t.id in s.core.db.tasks ==> s'.core.db.tasks[t.id] == s.core.db.tasks[t.id])
  {
    var m := PhaseOf(s.core, a.w).m;
    EventsOfAppend(s.core.db.events, m.event, t.id);
    CommittedMeans(s.core.db, m);
    hide EventsOf, Taken, Committed;
  }

  lemma OnlyStoresCommit(s: State, a: Action)
    requires Enabled(s, a) && !a.StoreEvent?
    ensures Do(s, a).db == s.db
  {
  }

  lemma RowInvKept(t: Task, s: Scene, m: Move)
    requires SceneInv(t, s) && Can(t, s, m)
    ensures RowInv(t, After(t, s, m))
  {
    if m.Step? {
      Commit(t, s, m.a);
    }
  }

  lemma ReadingGrows(log: seq<TaskEvent>, base: int, r: Reading, e: TaskEvent)
    requires ReadingHolds(log, base, r)
    ensures ReadingHolds(log + [e], base, r)
  {
    assert (log + [e])[..r.at] == log[..r.at];
  }

  lemma ReadingsInvKept(t: Task, s: Scene, m: Move)
    requires SceneInv(t, s) && Can(t, s, m)
    ensures ReadingsInv(t, After(t, s, m))
  {
    var s' := After(t, s, m);
    if m.Step? {
      Commit(t, s, m.a);
      forall w | w in s'.readings ensures ReadingHolds(Log(t, s'), Base(t, s'), s'.readings[w]) {
        assert ReadingHolds(Log(t, s), Base(t, s), s.readings[w]);
        if Log(t, s') != Log(t, s) {
          ReadingGrows(Log(t, s), Base(t, s), s.readings[w], PhaseOf(s.core, m.a.w).m.event);
        }
      }
    } else if m.ReadRow? {
      assert Log(t, s)[..|Log(t, s)|] == Log(t, s);
    }
  }

  lemma FlightInvKept(t: Task, s: Scene, m: Move)
    requires ReadingsInv(t, s) && FlightInv(t, s) && Can(t, s, m)
    ensures FlightInv(t, After(t, s, m))
  {
    hide Do, Enabled, ReadingHolds, EventsOf;
    forall w: nat ensures Flies(t, After(t, s, m), w) {
      assert Flies(t, s, w);
      if m.Step? {
        Commit(t, s, m.a);
        if w != ActorOf(m.a) {
          OthersStay(s.core, m.a, w);
        } else {
          ActorFlies(t, s, m.a);
        }
      }
    }
  }

  lemma ActorFlies(t: Task, s: Scene, a: Action)
    requires t.owner !in s.readings && Can(t, s, Step(a)) && 0 <= ActorOf(a) && Flies(t, s, ActorOf(a))
    ensures Flies(t, After(t, s, Step(a)), ActorOf(a))
  {
    hide EventsOf, MaxSeq, Committed, Taken;
  }

  lemma EndedGrows(log: seq<TaskEvent>, base: int, e: TaskEvent, n: int)
    requires n <= |log|
    ensures EndedBefore(log + [e], base, n) <==> EndedBefore(log, base, n)
  {
    assert forall k :: 0 <= k < |log| ==> (log + [e])[k] == log[k];
  }

  lemma OriginGrows(log: seq<TaskEvent>, base: int, j: int, origin: Option<Reading>, e: TaskEvent)
    requires 0 <= j < |log| && OriginHolds(log, base, j, origin)
    ensures OriginHolds(log + [e], base, j, origin)
  {
    EndedGrows(log, base, e, j);
    if origin.Some? {
      ReadingGrows(log, base, origin.value, e);
    }
  }

  /** What the newest event of the task owes to its origin. */
  lemma NewOriginHolds(t: Task, s: Scene, a: Action)
    requires SceneInv(t, s) && Can(t, s, Step(a)) && Decides(t, s, a) && Do(s.core, a).db != s.core.db
    ensures var s' := After(t, s, Step(a));
            && s'.origins != [] && |Log(t, s')| == |Log(t, s)| + 1
            && OriginHolds(Log(t, s'), Base(t, s), |Log(t, s)|, s'.origins[|s.origins|])
  {
    Commit(t, s, a);
    assert Flies(t, s, a.w);
    var e := PhaseOf(s.core, a.w).m.event;
    EndedGrows(Log(t, s), Base(t, s), e, |Log(t, s)|);
    if a.w != t.owner {
      ReadingGrows(Log(t, s), Base(t, s), s.readings[a.w], e);
    }
  }

  lemma EndedBeforeLast(log: seq<TaskEvent>, base: int, e: TaskEvent)
    ensures EndedBefore(log + [e], base, |log| + 1)
         ==> EndedBefore(log, base, |log|) || e.state.IsTerminal()
  {
    if EndedBefore(log + [e], base, |log| + 1) && !e.state.IsTerminal() {
      var k :| 0 <= k < |log| + 1 && base - 1 <= k && (log + [e])[k].state.IsTerminal();
      assert log[k].state.IsTerminal();
    }
  }

  /** Requests carry no terminal state. */
  lemma OnlyOwnerEnds(t: Task, s: Scene, w: nat)
    requires ReadingsInv(t, s) && FlightInv(t, s)
    requires Waits(t, s, w)
    ensures PhaseOf(s.core, w).m.event.state.IsTerminal() <==> w == t.owner && s.ended
  {
    assert Flies(t, s, w);
    if w != t.owner {
      assert ReadingHolds(Log(t, s), Base(t, s), s.readings[w]);
    }
  }

  lemma OriginsInvKept(t: Task, s: Scene, m: Move)
    requires SceneInv(t, s) && Can(t, s, m)
    ensures OriginsInv(t, After(t, s, m))
  {
    hide Do, Enabled, ReadingHolds, EndedBefore, OriginHolds;
    var s' := After(t, s, m);
    if m.Step? {
      Commit(t, s, m.a);
      if Decides(t, s, m.a) && s'.core.db != s.core.db {
        var e := PhaseOf(s.core, m.a.w).m.event;
        EndedBeforeLast(Log(t, s), Base(t, s), e);
        OnlyOwnerEnds(t, s, m.a.w);
        NewOriginHolds(t, s, m.a);
        forall i | 0 <= i < |s'.origins|
          ensures OriginHolds(Log(t, s'), Base(t, s'), Base(t, s') + i, s'.origins[i])
        {
          if i < |s.origins| {
            assert s'.origins[i] == s.origins[i];
            OriginGrows(Log(t, s), Base(t, s), Base(t, s) + i, s.origins[i], e);
          }
        }
      }
    }
  }

  lemma SceneInvKept(t: Task, s: Scene, m: Move)
    requires SceneInv(t, s) && Can(t, s, m)
    ensures SceneInv(t, After(t, s, m))
  {
    RowInvKept(t, s, m);
    ReadingsInvKept(t, s, m);
    FlightInvKept(t, s, m);
    OriginsInvKept(t, s, m);
  }

  /** The log only grows, and its start is where it was. */
  lemma LogGrows(t: Task, s: Scene, m: Move)
    requires SceneInv(t, s) && Can(t, s, m)
    ensures Log(t, s) <= Log(t, After(t, s, m)) && s.origins <= After(t, s, m).origins
    ensures Base(t, After(t, s, m)) == Base(t, s)
  {
    if m.Step? {
      Commit(t, s, m.a);
    }
  }

  lemma {:induction false} RunKeepsSceneInv(t: Task, s: Scene, moves: seq<Move>)
    requires SceneInv(t, s) && LegalMoves(t, s, moves)
    ensures SceneInv(t, Reached(t, s, moves))
    ensures Log(t, s) <= Log(t, Reached(t, s, moves)) && s.origins <= Reached(t, s, moves).origins
    ensures Base(t, Reached(t, s, moves)) == Base(t, s)
    decreases moves
  {
    hide Can, After, SceneInv, Log, Base;
    if moves != [] {
      SceneInvKept(t, s, moves[0]);
      LogGrows(t, s, moves[0]);
      RunKeepsSceneInv(t, After(t, s, moves[0]), moves[1..]);
    }
  }

  // ---- When a finished task stops being finished ----

  /** Main result, step by step: a move takes the row out of a terminal state exactly when it commits the event of
      a request while the row is terminal. The request had read the row before the event that ended the task
      was committed, and puts back what it read. */
  lemma LeavesTerminalExactly(t: Task, s: Scene, m: Move)
    requires SceneInv(t, s) && Can(t, s, m)
    ensures IsEnded(t, s) && !IsEnded(t, After(t, s, m))
       <==> IsEnded(t, s) && m.Step? && Decides(t, s, m.a) && m.a.w != t.owner && Do(s.core, m.a).db != s.core.db
    ensures IsEnded(t, s) && !IsEnded(t, After(t, s, m)) ==>
              && m.a.w in s.readings && Log(t, s) != [] && Log(t, s)[|Log(t, s)| - 1].state.IsTerminal()
              && s.readings[m.a.w].at <= |Log(t, s)| - 1
              && After(t, s, m).core.db.tasks[t.id].status == s.readings[m.a.w].status
  {
    if m.Step? {
      Commit(t, s, m.a);
      if Decides(t, s, m.a) && Do(s.core, m.a).db != s.core.db {
        OnlyOwnerEnds(t, s, m.a.w);
        assert Flies(t, s, m.a.w);
        if IsEnded(t, s) {
          EndedNow(t, s);
          if m.a.w != t.owner {
            ReadBefore(t, s, m.a.w);
          }
        }
      }
    }
  }

  /** A terminal row ends a log that somebody tried to end. */
  lemma EndedNow(t: Task, s: Scene)
    requires SceneInv(t, s) && IsEnded(t, s)
    ensures s.ended && Log(t, s) != [] && Log(t, s)[|Log(t, s)| - 1].state.IsTerminal()
  {
    var log := Log(t, s);
    assert log[|log| - 1].state.IsTerminal();
    assert EndedBefore(log, Base(t, s), |log|);
  }

  /** What a request read on a task that is terminal by now, it read before that. */
  lemma ReadBefore(t: Task, s: Scene, w: nat)
    requires SceneInv(t, s) && IsEnded(t, s) && w in s.readings
    ensures s.readings[w].at <= |Log(t, s)| - 1
  {
    assert ReadingHolds(Log(t, s), Base(t, s), s.readings[w]);
    assert Log(t, s)[..|Log(t, s)|] == Log(t, s);
  }

  /** Main result, over whole runs: wherever the log holds a terminal event that something follows, the next
      event leaves the terminal state exactly when a request appended it, and that request had read the row
      before the terminal event was committed. The position may be the last one of the log the run began
      with; no request can follow it. */
  lemma FollowsTerminal(t: Task, s: Scene, moves: seq<Move>, k: nat)
    requires Begins(t, s) && LegalMoves(t, s, moves)
    requires |Log(t, s)| - 1 <= k < |Log(t, Reached(t, s, moves))| - 1
    requires Log(t, Reached(t, s, moves))[k].state.IsTerminal()
    ensures var s' := Reached(t, s, moves);
            var j := k + 1 - |Log(t, s)|;
            && 0 <= j < |s'.origins|
            && (!Log(t, s')[k + 1].state.IsTerminal() <==> s'.origins[j].Some?)
            && (s'.origins[j].Some? ==> |Log(t, s)| <= s'.origins[j].value.at <= k
                                        && Log(t, s')[k + 1].state == s'.origins[j].value.status)
  {
    BeginsMeansInv(t, s);
    RunKeepsSceneInv(t, s, moves);
    var s' := Reached(t, s, moves);
    var log, base := Log(t, s'), Base(t, s');
    var j := k + 1 - base;
    assert OriginHolds(log, base, base + j, s'.origins[j]);
    assert EndedBefore(log, base, k + 1);
    assert log[..k + 1][k] == log[k];
  }

  /** A request that waits with a number that is taken by now: its transaction will be rolled back. */
  predicate Spent(t: Task, s: Scene, w: nat) {
    Waits(t, s, w) && Taken(s.core.db.events, t.id, PhaseOf(s.core, w).m.event.seqNo)
  }

  ghost predicate AllSpent(t: Task, s: Scene) {
    forall w :: w in s.readings ==> Spent(t, s, w)
  }

  lemma TakenStays(events: seq<TaskEvent>, more: seq<TaskEvent>, taskId: string, seqNo: int)
    requires Taken(events, taskId, seqNo) && events <= more
    ensures Taken(more, taskId, seqNo)
  {
    var i :| 0 <= i < |events| && events[i].taskId == taskId && events[i].seqNo == seqNo;
    assert more[i] == events[i];
  }

  /** A taken number stays taken; its request waits on, or is rolled back and gone. */
  lemma SpentKept(t: Task, s: Scene, m: Move, w: nat)
    requires Can(t, s, m) && w in s.readings && Spent(t, s, w) && w in After(t, s, m).readings
    ensures Spent(t, After(t, s, m), w)
  {
    hide Taken, Committed, MaxSeq, EventsOf;
    var s' := After(t, s, m);
    if m.Step? {
      TableAfter(s.core, m.a);
      if w != ActorOf(m.a) {
        OthersStay(s.core, m.a, w);
      }
    }
    TakenStays(s.core.db.events, s'.core.db.events, t.id, PhaseOf(s.core, w).m.event.seqNo);
  }

  lemma SpentIsRolledBack(t: Task, s: Scene, a: Action)
    requires Enabled(s.core, a) && a.StoreEvent? && Spent(t, s, a.w)
    ensures Do(s.core, a).db == s.core.db
  {
  }

  /** Nobody passes a guard on a finished task. */
  lemma SpentStaysSpent(t: Task, s: Scene, m: Move)
    requires SceneInv(t, s) && Can(t, s, m) && IsEnded(t, s) && AllSpent(t, s)
    ensures IsEnded(t, After(t, s, m)) && AllSpent(t, After(t, s, m))
  {
    hide Do, Enabled, EventsOf, RowInv, FlightInv, OriginsInv;
    LeavesTerminalExactly(t, s, m);
    if m.Step? && Decides(t, s, m.a) && m.a.w in s.readings {
      SpentIsRolledBack(t, s, m.a);
    }
    var s' := After(t, s, m);
    forall w | w in s'.readings ensures Spent(t, s', w) {
      assert Spent(t, s, w);
      SpentKept(t, s, m, w);
    }
  }

  lemma {:induction false} SpentRunStays(t: Task, s: Scene, moves: seq<Move>)
    requires SceneInv(t, s) && LegalMoves(t, s, moves) && IsEnded(t, s) && AllSpent(t, s)
    ensures IsEnded(t, Reached(t, s, moves))
    decreases moves
  {
    hide Can, After, SceneInv, IsEnded, AllSpent;
    if moves != [] {
      SpentStaysSpent(t, s, moves[0]);
      SceneInvKept(t, s, moves[0]);
      SpentRunStays(t, After(t, s, moves[0]), moves[1..]);
    }
  }

  lemma OneMove(t: Task, s: Scene, moves: seq<Move>)
    requires moves != [] && Can(t, s, moves[0]) && LegalMoves(t, After(t, s, moves[0]), moves[1..])
    ensures LegalMoves(t, s, moves) && Reached(t, s, moves) == Reached(t, After(t, s, moves[0]), moves[1..])
  {
  }

  /** From `s` to `s'` nobody but `w` has moved. */
  ghost predicate OnlyActs(s: Scene, s': Scene, w: nat) {
    s'.ended == s.ended && forall v: nat :: v != w ==> PhaseOf(s'.core, v) == PhaseOf(s.core, v)
  }

  /** A waiting request whose number is free commits, and puts back the status it read. */
  lemma WaitingCommits(t: Task, s: Scene, w: nat)
    requires SceneInv(t, s) && w in s.readings && Waits(t, s, w) && !Spent(t, s, w)
    ensures var moves := [Step(StoreEvent(w, NoFault))];
            && LegalMoves(t, s, moves)
            && t.id in Reached(t, s, moves).core.db.tasks
            && Reached(t, s, moves).core.db.tasks[t.id].status == s.readings[w].status
            && OnlyActs(s, Reached(t, s, moves), w)
  {
    var a := StoreEvent(w, NoFault);
    assert Flies(t, s, w);
    assert [Step(a)][1..] == [];
    OneMove(t, s, [Step(a)]);
  }

  /** A request that still has to read its number reads a free one. */
  lemma RequestNumbers(t: Task, s: Scene, w: nat, handle: Handle, payload: JsonMap)
    requires SceneInv(t, s) && w in s.readings && PhaseOf(s.core, w).Idle?
    ensures var m := Step(ReadSeq(w, ControlDraft(t.id, s.readings[w].request, s.readings[w].status, handle, payload)));
            && Can(t, s, m) && After(t, s, m).readings == s.readings
            && Waits(t, After(t, s, m), w) && !Spent(t, After(t, s, m), w) && OnlyActs(s, After(t, s, m), w)
  {
    assert t.owner !in s.readings;
  }

  /** A request that passed its guard and is not spent can bring its status back. */
  lemma UnspentReturns(t: Task, s: Scene, w: nat) returns (moves: seq<Move>)
    requires SceneInv(t, s) && w in s.readings && !Spent(t, s, w)
    ensures LegalMoves(t, s, moves) && t.id in Reached(t, s, moves).core.db.tasks
    ensures Reached(t, s, moves).core.db.tasks[t.id].status == s.readings[w].status
    ensures OnlyActs(s, Reached(t, s, moves), w)
  {
    hide Can, After;
    assert Flies(t, s, w);
    moves := [Step(StoreEvent(w, NoFault))];
    if Waits(t, s, w) {
      WaitingCommits(t, s, w);
    } else {
      var handle, payload := Handle("", "", ""), map[];
      RequestNumbers(t, s, w, handle, payload);
      var m := Step(ReadSeq(w, ControlDraft(t.id, s.readings[w].request, s.readings[w].status, handle, payload)));
      SceneInvKept(t, s, m);
      WaitingCommits(t, After(t, s, m), w);
      var both := [m] + moves;
      assert both[1..] == moves;
      OneMove(t, s, both);
      moves := both;
    }
  }

  /** Main result, over every future: a finished task stays finished in every run exactly when each request that
      has passed its guard waits with a number that is taken by now. With one request that is not, some run
      takes the task back to what that request read. */
  lemma AbsorbingExactly(t: Task, s: Scene)
    requires SceneInv(t, s) && IsEnded(t, s)
    ensures (forall moves :: LegalMoves(t, s, moves) ==> IsEnded(t, Reached(t, s, moves))) <==> AllSpent(t, s)
  {
    if AllSpent(t, s) {
      forall moves | LegalMoves(t, s, moves) ensures IsEnded(t, Reached(t, s, moves)) {
        SpentRunStays(t, s, moves);
      }
    } else {
      var w :| w in s.readings && !Spent(t, s, w);
      assert ReadingHolds(Log(t, s), Base(t, s), s.readings[w]);
      var moves := UnspentReturns(t, s, w);
      assert LegalMoves(t, s, moves) && !IsEnded(t, Reached(t, s, moves));
    }
  }

  /** A task that was finished before the process began stays finished, whatever requests come. */
  lemma SettledTaskStays(t: Task, s: Scene, moves: seq<Move>)
    requires Begins(t, s) && IsEnded(t, s) && LegalMoves(t, s, moves)
    ensures IsEnded(t, Reached(t, s, moves))
  {
    BeginsMeansInv(t, s);
    SpentRunStays(t, s, moves);
  }

  /** The owner appends nothing to the task any more, as runTask after its last append. */
  predicate OwnerSilent(t: Task, moves: seq<Move>) {
    forall i :: 0 <= i < |moves| && moves[i].Step? && moves[i].a.ReadSeq? && moves[i].a.w == t.owner
      ==> moves[i].a.draft.event.taskId != t.id
  }

  /** A task that a request took out of its terminal state never reaches one again once its owner is through. */
  lemma {:induction false} NeverEndsAgain(t: Task, s: Scene, moves: seq<Move>)
    requires SceneInv(t, s) && LegalMoves(t, s, moves) && t.id in s.core.db.tasks && !IsEnded(t, s)
    requires OwnerSilent(t, moves) && !Waits(t, s, t.owner)
    ensures !IsEnded(t, Reached(t, s, moves)) && t.id in Reached(t, s, moves).core.db.tasks
    decreases moves
  {
    if moves != [] {
      assert moves[0] in moves;
      SilentMove(t, s, moves[0]);
      SceneInvKept(t, s, moves[0]);
      NeverEndsAgain(t, After(t, s, moves[0]), moves[1..]);
    }
  }

  lemma SilentMove(t: Task, s: Scene, m: Move)
    requires SceneInv(t, s) && Can(t, s, m) && t.id in s.core.db.tasks && !IsEnded(t, s) && !Waits(t, s, t.owner)
    requires OwnerSilent(t, [m])
    ensures t.id in After(t, s, m).core.db.tasks && !IsEnded(t, After(t, s, m)) && !Waits(t, After(t, s, m), t.owner)
  {
    assert [m][0] == m;
    if m.Step? {
      OwnerStays(t, s, m.a);
      hide Do, Enabled, RowInv, OriginsInv, EventsOf;
      Commit(t, s, m.a);
      if Decides(t, s, m.a) {
        OnlyOwnerEnds(t, s, m.a.w);
      }
    }
  }

  lemma OwnerStays(t: Task, s: Scene, a: Action)
    requires Enabled(s.core, a) && !Waits(t, s, t.owner)
    requires a.ReadSeq? && a.w == t.owner ==> a.draft.event.taskId != t.id
    ensures PhaseOf(Do(s.core, a), t.owner).SeqRead? ==> PhaseOf(Do(s.core, a), t.owner).m.event.taskId != t.id
  {
    if t.owner != ActorOf(a) {
      OthersStay(s.core, a, t.owner);
    }
  }

  // ---- A run in which a cancel request takes a task back ----

  lemma {:induction false} MovesConcat(t: Task, s: Scene, first: seq<Move>, second: seq<Move>)
    requires LegalMoves(t, s, first) && LegalMoves(t, Reached(t, s, first), second)
    ensures LegalMoves(t, s, first + second)
    ensures Reached(t, s, first + second) == Reached(t, Reached(t, s, first), second)
    decreases first
  {
    hide Can, After;
    if first == [] {
      assert first + second == second;
    } else {
      MovesConcat(t, After(t, s, first[0]), first[1..], second);
      assert (first + second)[1..] == first[1..] + second;
    }
  }

  lemma Then(t: Task, s: Scene, moves: seq<Move>, m: Move)
    requires LegalMoves(t, s, moves) && Can(t, Reached(t, s, moves), m)
    ensures LegalMoves(t, s, moves + [m]) && Reached(t, s, moves + [m]) == After(t, Reached(t, s, moves), m)
  {
    hide Can, After;
    assert [m][1..] == [];
    assert LegalMoves(t, After(t, Reached(t, s, moves), m), []);
    MovesConcat(t, s, moves, [m]);
  }

  lemma OwnerNumbers(t: Task, s: Scene, draft: Mutation)
    requires PhaseOf(s.core, t.owner).Idle? && t.id in s.core.db.tasks && !s.ended && t.owner !in s.readings
    requires draft.event.taskId == t.id
    ensures Can(t, s, Step(ReadSeq(t.owner, draft)))
    ensures After(t, s, Step(ReadSeq(t.owner, draft)))
         == s.(core := s.core.(phases := s.core.phases[t.owner := SeqRead(Numbered(s.core.db, draft))]),
               ended := draft.event.state.IsTerminal())
  {
  }

  lemma OwnerStores(t: Task, s: Scene, m: Mutation)
    requires PhaseOf(s.core, t.owner) == SeqRead(m) && m.event.taskId == t.id && t.owner !in s.readings
    requires !Taken(s.core.db.events, t.id, m.event.seqNo)
    ensures Can(t, s, Step(StoreEvent(t.owner, NoFault)))
    ensures var s' := After(t, s, Step(StoreEvent(t.owner, NoFault)));
            s' == s.(core := s.core.(db := Committed(s.core.db, m), phases := s.core.phases[t.owner := Stored(m.event)]),
                     origins := s'.origins)
  {
    assert s.readings - {t.owner} == s.readings;
  }

  /** The owner reads the next number and commits. */
  lemma OwnerCommits(t: Task, s: Scene, moves: seq<Move>, draft: Mutation) returns (after: seq<Move>)
    requires LegalMoves(t, s, moves) && draft.event.taskId == t.id
    requires var s1 := Reached(t, s, moves);
             && PhaseOf(s1.core, t.owner).Idle? && t.id in s1.core.db.tasks && !s1.ended && t.owner !in s1.readings
    ensures LegalMoves(t, s, after)
    ensures var s1, s2 := Reached(t, s, moves), Reached(t, s, after);
            && s2.core == s1.core.(db := Committed(s1.core.db, Numbered(s1.core.db, draft)),
                                   phases := s1.core.phases[t.owner := Stored(Numbered(s1.core.db, draft).event)])
            && s2.readings == s1.readings && s2.ended == draft.event.state.IsTerminal()
  {
    hide Can, After, Committed, Taken;
    var s1 := Reached(t, s, moves);
    OwnerNumbers(t, s1, draft);
    Then(t, s, moves, Step(ReadSeq(t.owner, draft)));
    after := moves + [Step(ReadSeq(t.owner, draft))];
    assert !Taken(s1.core.db.events, t.id, MaxSeq(s1.core.db.events, t.id) + 1) by { NextIsFree(s1.core.db.events, t.id); }
    OwnerStores(t, Reached(t, s, after), Numbered(s1.core.db, draft));
    Then(t, s, after, Step(StoreEvent(t.owner, NoFault)));
    after := after + [Step(StoreEvent(t.owner, NoFault))];
  }

  lemma NextIsFree(events: seq<TaskEvent>, taskId: string)
    ensures !Taken(events, taskId, MaxSeq(events, taskId) + 1)
  {
  }

  /** The owner publishes its event when nobody is subscribed. */
  lemma OwnerPublishes(t: Task, s: Scene, moves: seq<Move>) returns (after: seq<Move>)
    requires LegalMoves(t, s, moves)
    requires PhaseOf(Reached(t, s, moves).core, t.owner).Stored? && Reached(t, s, moves).core.subscribers == map[]
    ensures LegalMoves(t, s, after)
    ensures var s1 := Reached(t, s, moves);
            Reached(t, s, after) == s1.(core := s1.core.(phases := s1.core.phases[t.owner := Idle]))
  {
    var s1 := Reached(t, s, moves);
    Then(t, s, moves, Step(StartPublish(t.owner)));
    after := moves + [Step(StartPublish(t.owner))];
    Then(t, s, after, Step(EndPublish(t.owner)));
    after := after + [Step(EndPublish(t.owner))];
    assert Reached(t, s, after).core.phases == s1.core.phases[t.owner := Idle];
  }

  /** A cancel request reads the row and passes its guard. */
  lemma CancelReads(t: Task, s: Scene, moves: seq<Move>, w: nat) returns (after: seq<Move>)
    requires LegalMoves(t, s, moves) && w != t.owner
    requires var s1 := Reached(t, s, moves);
             && t.id in s1.core.db.tasks && !IsEnded(t, s1) && w !in s1.readings && PhaseOf(s1.core, w).Idle?
    ensures LegalMoves(t, s, after)
    ensures var s1 := Reached(t, s, moves);
            Reached(t, s, after)
            == s1.(readings := s1.readings[w := Reading(Cancel, s1.core.db.tasks[t.id].status, |Log(t, s1)|)])
  {
    Then(t, s, moves, ReadRow(w, Cancel));
    after := moves + [ReadRow(w, Cancel)];
  }

  /** From any freshly booted node, and for any terminal event that ends a task created there: some run creates
      the task, has its owner report it running, lets a cancel request read that, ends the task, and then
      commits the request. The row was terminal and says running again, and while the owner appends no more,
      as runTask does after a terminal event, no run whatever ends the task again. */
  lemma CancelTakesTaskBack(t: Task, core: State, row: TaskRow, start: Mutation, finish: Mutation, w: nat)
    returns (moves: seq<Move>, rest: seq<Move>)
    requires Booted(core) && t.id !in core.db.tasks && EventsOf(core.db.events, t.id) == []
    requires row.status == Created && start.event.taskId == t.id && finish.event.taskId == t.id && w != t.owner
    requires start.event.state == Running && finish.event.state.IsTerminal()
    ensures var s := Scene(core, false, map[], []);
            && Begins(t, s) && LegalMoves(t, s, moves) && IsEnded(t, Reached(t, s, moves))
            && Reached(t, s, moves).core.db.tasks[t.id].status == finish.event.state
            && LegalMoves(t, Reached(t, s, moves), rest)
            && var s' := Reached(t, Reached(t, s, moves), rest);
               && t.id in s'.core.db.tasks && s'.core.db.tasks[t.id].status == Running
               && (forall more :: LegalMoves(t, s', more) && OwnerSilent(t, more) ==> !IsEnded(t, Reached(t, s', more)))
  {
    hide EventsOf, MaxSeq, Taken;
    var s := Scene(core, false, map[], []);
    assert Begins(t, s);
    BeginsMeansInv(t, s);
    moves := [];
    Then(t, s, moves, Create(row));
    moves := moves + [Create(row)];
    moves := OwnerCommits(t, s, moves, start);
    moves := OwnerPublishes(t, s, moves);
    moves := CancelReads(t, s, moves, w);
    moves := OwnerCommits(t, s, moves, finish);
    moves := OwnerPublishes(t, s, moves);
    RunKeepsSceneInv(t, s, moves);
    var s1 := Reached(t, s, moves);
    rest := UnspentReturns(t, s1, w);
    RunKeepsSceneInv(t, s1, rest);
    var s2 := Reached(t, s1, rest);
    assert !Waits(t, s2, t.owner) by { assert PhaseOf(s2.core, t.owner) == PhaseOf(s1.core, t.owner); }
    forall more | LegalMoves(t, s2, more) && OwnerSilent(t, more) ensures !IsEnded(t, Reached(t, s2, more)) {
      NeverEndsAgain(t, s2, more);
    }
  }

  // ---- The two requests, run alone ----

  /** How resolving the target and calling its adapter go. */
  datatype Answer = NoTarget | NoAdapter | Refuses | Agrees(handle: Handle)

  datatype Verdict = TaskNotFound | NotAwaitable | TargetNotFound | AdapterMissing | AdapterFailed | Current(row: TaskRow)

  /** What an undisturbed request leaves behind and what its caller hears. */
  function Handled(s: State, taskId: string, request: Request, payload: JsonMap, answer: Answer, outcome: Outcome): (State, Verdict) {
    if taskId !in s.db.tasks then (s, TaskNotFound)
    else
      var row := s.db.tasks[taskId];
      if !Accepts(request, row.status) then (s, if request.Cancel? then Current(row) else NotAwaitable)
      else match answer
        case NoTarget => (s, TargetNotFound)
        case NoAdapter => (s, AdapterMissing)
        case Refuses => (s, AdapterFailed)
        case Agrees(handle) =>
          var s' := AppendedAlone(s, ControlDraft(taskId, request, row.status, handle, payload), outcome.fault, outcome.turnOk);
          (s', Current(s'.db.tasks[taskId]))
  }

  /** What an undisturbed request does, from the source's own answers: a missing task, a finished one that is to
      be cancelled, one that is to be resumed and awaits no input, a missing target or adapter, and an
      adapter that refuses all leave the node alone. Otherwise one event is appended that names the request
      and repeats the status, and it is published like any other. */
  lemma HandledMeans(s: State, taskId: string, request: Request, payload: JsonMap, answer: Answer, outcome: Outcome)
    ensures var (s', verdict) := Handled(s, taskId, request, payload, answer, outcome);
            && (taskId !in s.db.tasks ==> s' == s && verdict == TaskNotFound)
            && (taskId in s.db.tasks ==>
                  var row := s.db.tasks[taskId];
                  var passes := if request == Cancel then row.status !in {Completed, Failed, Cancelled} else row.status == AwaitingInput;
                  && (!passes ==> s' == s && verdict == if request == Cancel then Current(row) else NotAwaitable)
                  && (passes && answer == NoTarget ==> s' == s && verdict == TargetNotFound)
                  && (passes && answer == NoAdapter ==> s' == s && verdict == AdapterMissing)
                  && (passes && answer == Refuses ==> s' == s && verdict == AdapterFailed)
                  && (passes && answer.Agrees? && outcome.fault != NoFault ==> s' == s && verdict == Current(row))
                  && (passes && answer.Agrees? && outcome.fault == NoFault ==> AppendsRequest(s, s', taskId, request, payload, answer.handle, outcome.turnOk)
                                                                               && verdict == Current(s'.db.tasks[taskId])))
  {
    if taskId in s.db.tasks && answer.Agrees? {
      var draft := ControlDraft(taskId, request, s.db.tasks[taskId].status, answer.handle, payload);
      AppendedAloneMeans(s, draft, outcome.fault, outcome.turnOk);
    }
  }

  /** The event of a request joins the log, the row keeps its status and takes over the handle's binding. */
  ghost predicate AppendsRequest(s: State, s': State, taskId: string, request: Request, payload: JsonMap, handle: Handle, turnOk: bool)
    requires taskId in s.db.tasks
  {
    var status := s.db.tasks[taskId].status;
    var e := TaskEvent(taskId, MaxSeq(s.db.events, taskId) + 1,
                       if request == Cancel then TaskCancelRequested else TaskResumeRequested, status, FromApi,
                       if request == Cancel then "Cancel requested" else "Resume requested", payload);
    && s'.db.events == s.db.events + [e]
    && taskId in s'.db.tasks && s'.db.tasks[taskId].status == status && s'.db.tasks[taskId].lastError == None
    && s'.db.tasks[taskId].binding == Some(handle.binding)
    && PublishedRight(s.channels, s'.channels, s.subscribers, if turnOk then Some(e) else None)
  }

  /** Alone, a request never changes the status of a task. */
  lemma AloneItKeepsTheStatus(s: State, taskId: string, request: Request, payload: JsonMap, answer: Answer, outcome: Outcome)
    requires taskId in s.db.tasks
    ensures var s' := Handled(s, taskId, request, payload, answer, outcome).0;
            taskId in s'.db.tasks && s'.db.tasks[taskId].status == s.db.tasks[taskId].status
            && |s.db.events| <= |s'.db.events| <= |s.db.events| + 1
  {
    HandledMeans(s, taskId, request, payload, answer, outcome);
  }

  method CancelTask(core: Orchestrator, taskId: string, reason: string, answer: Answer, outcome: Outcome) returns (verdict: Verdict)
    requires core.Valid()
    modifies core, core.store
    ensures core.Valid()
    ensures (core.Snapshot(), verdict)
         == Handled(old(core.Snapshot()), taskId, Cancel, if reason == "" then map[] else map["reason" := JStr(reason)], answer, outcome)
  {
    if taskId !in core.store.tasks { return TaskNotFound; }
    var task := core.store.tasks[taskId];
    if task.status.IsTerminal() { return Current(task); }
    if answer.NoTarget? { return TargetNotFound; }
    if answer.NoAdapter? { return AdapterMissing; }
    var payload := map[];
    if reason != "" {
      payload := payload["reason" := JStr(reason)];
    }
    if answer.Refuses? { return AdapterFailed; }
    var _ := core.AppendEvent(ControlDraft(taskId, Cancel, task.status, answer.handle, payload), outcome.fault, outcome.turnOk);
    return Current(core.store.tasks[taskId]);
  }

  method ResumeTask(core: Orchestrator, taskId: string, payload: JsonMap, answer: Answer, outcome: Outcome) returns (verdict: Verdict)
    requires core.Valid()
    modifies core, core.store
    ensures core.Valid()
    ensures (core.Snapshot(), verdict) == Handled(old(core.Snapshot()), taskId, Resume, payload, answer, outcome)
  {
    if taskId !in core.store.tasks { return TaskNotFound; }
    var task := core.store.tasks[taskId];
    if task.status != AwaitingInput { return NotAwaitable; }
    if answer.NoTarget? { return TargetNotFound; }
    if answer.NoAdapter? { return AdapterMissing; }
    if answer.Refuses? { return AdapterFailed; }
    var _ := core.AppendEvent(ControlDraft(taskId, Resume, AwaitingInput, answer.handle, payload), outcome.fault, outcome.turnOk);
    return Current(core.store.tasks[taskId]);
  }

  // ---- An undisturbed request is one of the runs above ----

  function Steps(run: seq<Action>): seq<Move> {
    seq(|run|, i requires 0 <= i < |run| => Step(run[i]))
  }

  /** Steps that touch neither the task's table rows nor a number are steps of the whole machine. */
  lemma {:induction false} LiftRun(t: Task, s: Scene, run: seq<Action>)
    requires Legal(s.core, run) && forall a :: a in run ==> !a.ReadSeq? && !a.StoreEvent?
    ensures LegalMoves(t, s, Steps(run)) && Reached(t, s, Steps(run)) == s.(core := Exec(s.core, run))
    decreases run
  {
    hide Do, Enabled;
    if run != [] {
      assert Steps(run)[1..] == Steps(run[1..]);
      assert run[0] in run;
      LiftRun(t, After(t, s, Step(run[0])), run[1..]);
      OneMove(t, s, Steps(run));
    }
  }

  /** The append of a request, from its number to its last publication. */
  lemma RequestAppends(t: Task, s: Scene, moves: seq<Move>, w: nat, handle: Handle, payload: JsonMap, outcome: Outcome)
    returns (after: seq<Move>)
    requires LegalMoves(t, s, moves) && w != t.owner
    requires var s1 := Reached(t, s, moves);
             && w in s1.readings && PhaseOf(s1.core, w).Idle? && t.id in s1.core.db.tasks
             && forall id :: id in s1.core.subscribers ==> id in s1.core.channels && s1.core.channels[id].open
    ensures LegalMoves(t, s, after)
    ensures var s1, s2 := Reached(t, s, moves), Reached(t, s, after);
            var draft := ControlDraft(t.id, s1.readings[w].request, s1.readings[w].status, handle, payload);
            && s2.core == AppendedAlone(s1.core, draft, outcome.fault, outcome.turnOk).(phases := s2.core.phases)
            && (forall v :: PhaseOf(s2.core, v) == PhaseOf(s1.core, v)) && s2.readings == s1.readings - {w}
    ensures Step(FailTurnUpdate(w)) in after && Step(FailTurnUpdate(w)) !in moves ==> !outcome.turnOk
  {
    hide Can, After;
    var s1 := Reached(t, s, moves);
    var draft := ControlDraft(t.id, s1.readings[w].request, s1.readings[w].status, handle, payload);
    RequestStores(t, s1, w, draft, outcome.fault);
    Then(t, s, moves, Step(ReadSeq(w, draft)));
    after := moves + [Step(ReadSeq(w, draft))];
    Then(t, s, after, Step(StoreEvent(w, outcome.fault)));
    after := after + [Step(StoreEvent(w, outcome.fault))];
    var s2 := Reached(t, s, after);
    if outcome.fault == NoFault {
      var tail := AfterStore(s2.core, w, outcome.turnOk);
      LiftRun(t, s2, tail);
      MovesConcat(t, s, after, Steps(tail));
      after := after + Steps(tail);
    }
  }

  lemma RequestStores(t: Task, s: Scene, w: nat, draft: Mutation, fault: TxFault)
    requires w != t.owner && w in s.readings && PhaseOf(s.core, w).Idle? && t.id in s.core.db.tasks
    requires draft.event.taskId == t.id && IsControlDraft(draft, s.readings[w].request, s.readings[w].status)
    ensures Can(t, s, Step(ReadSeq(w, draft)))
    ensures var s1 := After(t, s, Step(ReadSeq(w, draft)));
            var m := Numbered(s.core.db, draft);
            && Can(t, s1, Step(StoreEvent(w, fault)))
            && var s2 := After(t, s1, Step(StoreEvent(w, fault)));
               && s2.core == s.core.(db := if fault == NoFault then Committed(s.core.db, m) else s.core.db,
                                     phases := s.core.phases[w := if fault == NoFault then Stored(m.event) else Idle])
               && s2.readings == s.readings - {w}
  {
    NextIsFree(s.core.db.events, t.id);
    hide Taken, MaxSeq, EventsOf;
    var s1 := After(t, s, Step(ReadSeq(w, draft)));
    assert s1.core.phases[w := Idle] == s.core.phases[w := Idle];
    assert s1 == s.(core := s1.core);
  }

  /** An undisturbed request is one of the runs above, with the same tables and channels. */
  lemma RequestIsARun(t: Task, s: Scene, w: nat, request: Request, payload: JsonMap, answer: Answer, outcome: Outcome)
    returns (moves: seq<Move>)
    requires w != t.owner && w !in s.readings && PhaseOf(s.core, w).Idle?
    requires forall id :: id in s.core.subscribers ==> id in s.core.channels && s.core.channels[id].open
    ensures LegalMoves(t, s, moves)
    ensures var s' := Reached(t, s, moves);
            && s'.core == Handled(s.core, t.id, request, payload, answer, outcome).0.(phases := s'.core.phases)
            && (forall v :: PhaseOf(s'.core, v) == PhaseOf(s.core, v)) && s'.readings == s.readings
    ensures outcome.turnOk ==> Step(FailTurnUpdate(w)) !in moves
  {
    moves := [];
    if t.id in s.core.db.tasks && Accepts(request, s.core.db.tasks[t.id].status) {
      Then(t, s, moves, ReadRow(w, request));
      moves := moves + [ReadRow(w, request)];
      assert s.readings[w := Reached(t, s, moves).readings[w]] - {w} == s.readings;
      if answer.Agrees? {
        moves := RequestAppends(t, s, moves, w, answer.handle, payload, outcome);
      } else {
        Then(t, s, moves, GiveUp(w));
        moves := moves + [GiveUp(w)];
      }
    }
  }
}
