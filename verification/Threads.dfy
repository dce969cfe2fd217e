/** Two-agent threads: who may speak to whom, the turn log of a thread, and the controller loop that
    hands a conversation back and forth. */
module Threads {
  import opened TaskTypes
  import opened EventStore

  /** A thread row. "" stands for an agent or task that is not recorded yet. */
  datatype ThreadRecord = ThreadRecord(
    agentA: string,
    agentB: string,
    status: ThreadStatus,
    lastTask: string,
    lastActor: string,
    lastTarget: string)

  /** What a created task says about its turn; the turn index is given to it by the table. */
  datatype Draft = Draft(threadId: string, taskId: string, sender: string, target: string, status: TaskStatus)

  datatype Turn = Turn(index: int, draft: Draft)

  datatype Tables = Tables(rows: map<string, ThreadRecord>, turns: seq<Turn>)

  datatype Pair = Pair(sender: string, target: string)

  // ---- Who may speak to whom ----

  function ValidateThreadParticipants(thread: ThreadRecord, sender: string, target: string): Option<Pair> {
    if sender == "" then None
    else if sender != thread.agentA && sender != thread.agentB then None
    else if target == "" then Some(Pair(sender, if sender == thread.agentA then thread.agentB else thread.agentA))
    else if target == sender then None
    else if target != thread.agentA && target != thread.agentB then None
    else Some(Pair(sender, target))
  }

  function DeriveThreadContinuationPair(thread: ThreadRecord, sender: string, target: string): Option<Pair> {
    var s :=
      if sender != "" then sender
      else if target == thread.agentA then thread.agentB
      else if target == thread.agentB then thread.agentA
      else if thread.lastTarget != "" then thread.lastTarget
      else thread.agentA;
    var t := if target != "" then target else if s == thread.agentA then thread.agentB else thread.agentA;
    ValidateThreadParticipants(thread, s, t)
  }

  /** The boundary that CreateThread sets up: two named, distinct agents. */
  predicate TwoAgents(thread: ThreadRecord) {
    thread.agentA != "" && thread.agentB != "" && thread.agentA != thread.agentB
  }

  predicate Within(thread: ThreadRecord, p: Pair) {
    p == Pair(thread.agentA, thread.agentB) || p == Pair(thread.agentB, thread.agentA)
  }

  function Swap(p: Pair): Pair {
    Pair(p.target, p.sender)
  }

  /** A pair is accepted exactly when it stays inside the thread, and then it is the one that the given
      names leave open. */
  lemma ValidationIsExact(thread: ThreadRecord, sender: string, target: string)
    requires TwoAgents(thread)
    ensures var r := ValidateThreadParticipants(thread, sender, target);
            && (r.Some? <==> exists p: Pair :: Within(thread, p) && p.sender == sender && (target == "" || p.target == target))
            && (r.Some? ==> Within(thread, r.value) && r.value.sender == sender && (target == "" || r.value.target == target))
  {
    var ab, ba := Pair(thread.agentA, thread.agentB), Pair(thread.agentB, thread.agentA);
    assert Within(thread, ab) && Within(thread, ba);
  }

  /** Continuation succeeds exactly when what the caller named fits one of the two directions; the caller
      is never overruled; and with nothing named it answers the last turn. */
  lemma ContinuationIsExact(thread: ThreadRecord, sender: string, target: string)
    requires TwoAgents(thread) && thread.lastTarget in {"", thread.agentA, thread.agentB}
    ensures var r := DeriveThreadContinuationPair(thread, sender, target);
            && (r.Some? <==> exists p: Pair :: Within(thread, p) && (sender == "" || p.sender == sender) && (target == "" || p.target == target))
            && (r.Some? ==> Within(thread, r.value) && (sender == "" || r.value.sender == sender) && (target == "" || r.value.target == target))
            && (sender == "" && target == "" ==>
                  r.Some? && r.value.sender == if thread.lastTarget != "" then thread.lastTarget else thread.agentA)
  {
    var ab, ba := Pair(thread.agentA, thread.agentB), Pair(thread.agentB, thread.agentA);
    assert Within(thread, ab) && Within(thread, ba);
  }

  // ---- The turn table ----

  function TurnsOf(turns: seq<Turn>, threadId: string): seq<Turn> {
    if turns == [] then []
    else
      var rest := TurnsOf(turns[..|turns| - 1], threadId);
      var last := turns[|turns| - 1];
      if last.draft.threadId == threadId then rest + [last] else rest
  }

  /** SELECT COALESCE(MAX(turn_index), 0), over rows whose indices count from 1. */
  function MaxIndex(turns: seq<Turn>): int {
    if turns == [] then 0
    else
      var rest := MaxIndex(turns[..|turns| - 1]);
      if rest < turns[|turns| - 1].index then turns[|turns| - 1].index else rest
  }

  /** The committed transaction: thread progress and the next turn. A missing thread row is not an error
      of the UPDATE. */
  function Appended(s: Tables, d: Draft): Tables {
    var turn := Turn(MaxIndex(TurnsOf(s.turns, d.threadId)) + 1, d);
    Tables(
      if d.threadId in s.rows
      then s.rows[d.threadId := s.rows[d.threadId].(lastTask := d.taskId, lastActor := d.sender, lastTarget := d.target, status := Active)]
      else s.rows,
      s.turns + [turn])
  }

  /** Turn indices 1..n, every turn inside the pair, and the row agrees with the newest turn. */
  ghost predicate ThreadCoherent(row: ThreadRecord, own: seq<Turn>) {
    && TwoAgents(row)
    && (forall i :: 0 <= i < |own| ==> own[i].index == i + 1 && Within(row, Pair(own[i].draft.sender, own[i].draft.target)))
    && (if own == [] then row.lastTask == row.lastActor == row.lastTarget == ""
        else var newest := own[|own| - 1].draft;
             row.lastTask == newest.taskId && row.lastActor == newest.sender && row.lastTarget == newest.target)
  }

  ghost predicate Coherent(s: Tables) {
    && (forall id :: id in s.rows ==> ThreadCoherent(s.rows[id], TurnsOf(s.turns, id)))
    && (forall i :: 0 <= i < |s.turns| ==> s.turns[i].draft.threadId in s.rows)
  }

  /** The draft was validated against its thread, whose two agents never change. */
  predicate Fits(s: Tables, d: Draft) {
    d.threadId in s.rows && Within(s.rows[d.threadId], Pair(d.sender, d.target))
  }

  lemma {:induction false} MaxOfNumbered(own: seq<Turn>)
    requires forall i :: 0 <= i < |own| ==> own[i].index == i + 1
    ensures MaxIndex(own) == |own|
  {
    if own != [] {
      MaxOfNumbered(own[..|own| - 1]);
    }
  }

  lemma AppendedTurns(s: Tables, d: Draft, id: string)
    ensures TurnsOf(Appended(s, d).turns, id)
         == if id == d.threadId then TurnsOf(s.turns, id) + [Turn(MaxIndex(TurnsOf(s.turns, id)) + 1, d)] else TurnsOf(s.turns, id)
  {
    assert Appended(s, d).turns[..|s.turns|] == s.turns;
  }

  lemma NextTurnCoherent(row: ThreadRecord, own: seq<Turn>, d: Draft)
    requires ThreadCoherent(row, own) && Within(row, Pair(d.sender, d.target))
    ensures ThreadCoherent(row.(lastTask := d.taskId, lastActor := d.sender, lastTarget := d.target, status := Active),
                           own + [Turn(MaxIndex(own) + 1, d)])
  {
    MaxOfNumbered(own);
  }

  lemma AppendKeepsCoherent(s: Tables, d: Draft)
    requires Coherent(s) && Fits(s, d)
    ensures Coherent(Appended(s, d))
  {
    hide ThreadCoherent;
    forall id | id in s.rows ensures ThreadCoherent(Appended(s, d).rows[id], TurnsOf(Appended(s, d).turns, id)) {
      AppendedTurns(s, d, id);
      if id == d.threadId {
        NextTurnCoherent(s.rows[id], TurnsOf(s.turns, id), d);
      }
    }
  }

  /** The two agents of a thread are what they were, and no thread disappears. */
  predicate SameThreads(s: Tables, s': Tables) {
    forall id :: id in s.rows ==>
      id in s'.rows && s'.rows[id].agentA == s.rows[id].agentA && s'.rows[id].agentB == s.rows[id].agentB
  }

  // ---- Any interleaving of task creations ----

  /** `pending`: creators that have loaded their thread and not yet appended their turn. */
  datatype State = State(tables: Tables, pending: map<nat, Draft>)

  datatype Action =
    | CreateThread(id: string, agentA: string, agentB: string)
    | LoadThread(w: nat, threadId: string, taskId: string, sender: string, target: string)
    | AppendTurn(w: nat, fault: TxFault)
    | MarkInterrupted(ids: set<string>)
    | SetTurnStatus(taskId: string, status: TaskStatus)

  predicate Enabled(s: State, a: Action) {
    match a
    case CreateThread(id, _, _) => id !in s.tables.rows
    case LoadThread(w, _, _, _, _) => w !in s.pending
    case AppendTurn(w, _) => w in s.pending
    case _ => true
  }

  function WithStatus(turns: seq<Turn>, taskId: string, status: TaskStatus): (r: seq<Turn>)
    ensures |r| == |turns|
    ensures forall i :: 0 <= i < |r| ==>
              r[i] == if turns[i].draft.taskId == taskId then turns[i].(draft := turns[i].draft.(status := status)) else turns[i]
  {
    seq(|turns|, i requires 0 <= i < |turns| =>
      if turns[i].draft.taskId == taskId then turns[i].(draft := turns[i].draft.(status := status)) else turns[i])
  }

  function Do(s: State, a: Action): State
    requires Enabled(s, a)
  {
    match a
    case CreateThread(id, agentA, agentB) =>
      if agentA == "" || agentB == "" || agentA == agentB then s
      else s.(tables := s.tables.(rows := s.tables.rows[id := ThreadRecord(agentA, agentB, Active, "", "", "")]))
    case LoadThread(w, threadId, taskId, sender, target) =>
      if threadId !in s.tables.rows then s
      else
        var r := ValidateThreadParticipants(s.tables.rows[threadId], if sender == "" then "local" else sender, target);
        if r == None then s
        else s.(pending := s.pending[w := Draft(threadId, taskId, r.value.sender, r.value.target, Created)])
    case AppendTurn(w, fault) =>
      State(if fault == NoFault then Appended(s.tables, s.pending[w]) else s.tables, s.pending - {w})
    case MarkInterrupted(ids) =>
      s.(tables := s.tables.(rows := map id | id in s.tables.rows ::
           if id in ids then s.tables.rows[id].(status := ThreadInterrupted) else s.tables.rows[id]))
    case SetTurnStatus(taskId, status) =>
      s.(tables := s.tables.(turns := WithStatus(s.tables.turns, taskId, status)))
  }

  ghost predicate Legal(s: State, run: seq<Action>)
    decreases run
  {
    run == [] || (Enabled(s, run[0]) && Legal(Do(s, run[0]), run[1..]))
  }

  function Exec(s: State, run: seq<Action>): State
    requires Legal(s, run)
    decreases run
  {
    if run == [] then s else Exec(Do(s, run[0]), run[1..])
  }

  ghost predicate Inv(s: State) {
    Coherent(s.tables) && forall w :: w in s.pending ==> Fits(s.tables, s.pending[w])
  }

  lemma {:induction false} StatusLeavesTurns(turns: seq<Turn>, taskId: string, status: TaskStatus, id: string)
    ensures TurnsOf(WithStatus(turns, taskId, status), id) == WithStatus(TurnsOf(turns, id), taskId, status)
  {
    if turns == [] {
    } else {
      var front := turns[..|turns| - 1];
      StatusLeavesTurns(front, taskId, status, id);
      assert WithStatus(turns, taskId, status)[..|turns| - 1] == WithStatus(front, taskId, status);
    }
  }

  lemma StatusKeepsThread(row: ThreadRecord, own: seq<Turn>, taskId: string, status: TaskStatus)
    requires ThreadCoherent(row, own)
    ensures ThreadCoherent(row, WithStatus(own, taskId, status))
  {
  }

  lemma StatusKeepsCoherent(s: Tables, taskId: string, status: TaskStatus)
    requires Coherent(s)
    ensures Coherent(s.(turns := WithStatus(s.turns, taskId, status)))
  {
    hide ThreadCoherent;
    forall id | id in s.rows ensures ThreadCoherent(s.rows[id], TurnsOf(WithStatus(s.turns, taskId, status), id)) {
      StatusLeavesTurns(s.turns, taskId, status, id);
      StatusKeepsThread(s.rows[id], TurnsOf(s.turns, id), taskId, status);
    }
  }

  lemma {:induction false} NoTurns(turns: seq<Turn>, id: string)
    requires forall i :: 0 <= i < |turns| ==> turns[i].draft.threadId != id
    ensures TurnsOf(turns, id) == []
  {
    if turns != [] {
      NoTurns(turns[..|turns| - 1], id);
    }
  }

  lemma NewThreadCoherent(s: Tables, id: string, row: ThreadRecord)
    requires Coherent(s) && id !in s.rows && ThreadCoherent(row, [])
    ensures Coherent(s.(rows := s.rows[id := row]))
  {
    hide ThreadCoherent;
    NoTurns(s.turns, id);
  }

  lemma MarkingKeepsCoherent(s: Tables, ids: set<string>)
    requires Coherent(s)
    ensures Coherent(s.(rows := map id | id in s.rows ::
              if id in ids then s.rows[id].(status := ThreadInterrupted) else s.rows[id]))
  {
    forall id | id in s.rows ensures ThreadCoherent(s.rows[id].(status := ThreadInterrupted), TurnsOf(s.turns, id)) {
      assert ThreadCoherent(s.rows[id], TurnsOf(s.turns, id));
    }
  }

  lemma CoherentKept(s: State, a: Action)
    requires Inv(s) && Enabled(s, a)
    ensures Coherent(Do(s, a).tables)
  {
    hide Coherent;
    match a
    case AppendTurn(w, fault) => AppendKeepsCoherent(s.tables, s.pending[w]);
    case SetTurnStatus(taskId, status) => StatusKeepsCoherent(s.tables, taskId, status);
    case CreateThread(id, agentA, agentB) =>
      if Do(s, a) != s {
        NewThreadCoherent(s.tables, id, ThreadRecord(agentA, agentB, Active, "", "", ""));
      }
    case MarkInterrupted(ids) => MarkingKeepsCoherent(s.tables, ids);
    case LoadThread(_, _, _, _, _) =>
  }

  lemma ThreadsKept(s: State, a: Action)
    requires Enabled(s, a)
    ensures SameThreads(s.tables, Do(s, a).tables)
  {
  }

  lemma InvKept(s: State, a: Action)
    requires Inv(s) && Enabled(s, a)
    ensures Inv(Do(s, a))
  {
    CoherentKept(s, a);
    ThreadsKept(s, a);
    if a.LoadThread? && a.threadId in s.tables.rows {
      var thread := s.tables.rows[a.threadId];
      assert ThreadCoherent(thread, TurnsOf(s.tables.turns, a.threadId));
      ValidationIsExact(thread, if a.sender == "" then "local" else a.sender, a.target);
    }
  }

  /** Thread coherence: from empty tables, however thread creations, task creations, failures, restarts
      and status updates interleave, the turns of every thread are numbered 1..n, each is between the
      thread's two distinct agents, and the thread row agrees with its newest turn. */
  lemma {:induction false} ThreadsStayCoherent(s: State, run: seq<Action>)
    requires Inv(s) && Legal(s, run)
    ensures Inv(Exec(s, run))
    decreases run
  {
    if run != [] {
      InvKept(s, run[0]);
      ThreadsStayCoherent(Do(s, run[0]), run[1..]);
    }
  }

  lemma EveryRunIsCoherent(run: seq<Action>)
    requires Legal(State(Tables(map[], []), map[]), run)
    ensures Coherent(Exec(State(Tables(map[], []), map[]), run).tables)
  {
    ThreadsStayCoherent(State(Tables(map[], []), map[]), run);
  }

  // ---- The controller loop ----

  datatype Policy = Policy(maxTurns: int, autoContinue: bool, stopOnSameActorRepeat: bool, stopOnTerminalError: bool)
  {
    function Normalized(): Policy {
      if maxTurns <= 0 then this.(maxTurns := 1) else this
    }
  }

  /** How a CreateTask call ends: done; refused before the task exists; failed with the task but not its
      turn; failed with both in place. */
  datatype CreateOutcome = Made | Refused | Orphaned | Unreported

  /** What one turn of the loop meets: the state in which the last task was seen, if it was seen at all,
      and the turns that others append before the thread is read and while the task is created. */
  datatype Round = Round(seen: Option<TaskStatus>, before: seq<Draft>, during: seq<Draft>, taskId: string, outcome: CreateOutcome)

  function AppendedAll(s: Tables, ds: seq<Draft>): Tables
    decreases ds
  {
    if ds == [] then s else AppendedAll(Appended(s, ds[0]), ds[1..])
  }

  /** The task at hand allows another turn. */
  predicate MayContinue(policy: Policy, seen: Option<TaskStatus>) {
    seen.Some? && seen.value != AwaitingInput && (policy.stopOnTerminalError ==> seen.value == Completed)
  }

  /** CreateTask on a thread: the tables afterwards, and whether a task was inserted and reported. */
  function AfterCreate(s: Tables, id: string, p: Pair, round: Round): Tables {
    if round.outcome.Made? || round.outcome.Unreported?
    then Appended(AppendedAll(s, round.during), Draft(id, round.taskId, p.sender, p.target, Created))
    else AppendedAll(s, round.during)
  }

  /** One turn of the loop: it may stop without a task, stop after one, or go on with one. */
  datatype Step = Step(tables: Tables, task: Option<Pair>, goesOn: bool)

  function OneTurn(s: Tables, id: string, policy: Policy, last: Pair, round: Round): (r: Step)
    ensures r.goesOn ==> r.task.Some?
  {
    if !MayContinue(policy, round.seen) then Step(s, None, false)
    else
      var s1 := AppendedAll(s, round.before);
      if id !in s1.rows then Step(s1, None, false)
      else
        var p := DeriveThreadContinuationPair(s1.rows[id], "", "");
        if p == None || (policy.stopOnSameActorRepeat && p.value.sender == last.sender) then Step(s1, None, false)
        else Step(AfterCreate(s1, id, p.value, round), if round.outcome.Refused? then None else p, round.outcome.Made?)
  }

  /** The loop from `turn` on, as the tables it leaves and the tasks it creates, in order. */
  function Handoff(s: Tables, id: string, policy: Policy, last: Pair, rounds: seq<Round>, turn: int): (r: (Tables, seq<Pair>))
    decreases rounds
  {
    if turn >= policy.maxTurns || rounds == [] then (s, [])
    else
      var step := OneTurn(s, id, policy, last, rounds[0]);
      if !step.goesOn then (step.tables, if step.task == None then [] else [step.task.value])
      else
        var (s', rest) := Handoff(step.tables, id, policy, step.task.value, rounds[1..], turn + 1);
        (s', [step.task.value] + rest)
  }

  /** The turns that others append were validated too. */
  ghost predicate OthersFit(s: Tables, rounds: seq<Round>) {
    forall i, d :: 0 <= i < |rounds| && (d in rounds[i].before || d in rounds[i].during) ==> Fits(s, d)
  }

  lemma AppendedSame(s: Tables, d: Draft)
    ensures SameThreads(s, Appended(s, d))
  {
  }

  lemma SameThreadsFollow(s: Tables, s1: Tables, s2: Tables)
    requires SameThreads(s, s1) && SameThreads(s1, s2)
    ensures SameThreads(s, s2)
  {
  }

  lemma StillFit(s: Tables, s': Tables, ds: seq<Draft>)
    requires SameThreads(s, s') && forall d :: d in ds ==> Fits(s, d)
    ensures forall d :: d in ds ==> Fits(s', d)
  {
  }

  lemma {:induction false} AppendAllKeeps(s: Tables, ds: seq<Draft>)
    requires Coherent(s) && forall d :: d in ds ==> Fits(s, d)
    ensures Coherent(AppendedAll(s, ds)) && SameThreads(s, AppendedAll(s, ds))
    decreases ds
  {
    hide Coherent, Appended, Fits;
    if ds != [] {
      assert ds[0] in ds && forall d :: d in ds[1..] ==> d in ds;
      AppendKeepsCoherent(s, ds[0]);
      AppendedSame(s, ds[0]);
      StillFit(s, Appended(s, ds[0]), ds[1..]);
      AppendAllKeeps(Appended(s, ds[0]), ds[1..]);
      SameThreadsFollow(s, Appended(s, ds[0]), AppendedAll(s, ds));
    }
  }

  /** A request creates at most `max_turns` tasks, the first one included. */
  lemma {:induction false} BoundedTurns(s: Tables, id: string, policy: Policy, last: Pair, rounds: seq<Round>, turn: int)
    requires turn <= policy.maxTurns
    ensures turn + |Handoff(s, id, policy, last, rounds, turn).1| <= policy.maxTurns
    decreases rounds
  {
    hide OneTurn;
    if rounds != [] && turn < policy.maxTurns {
      var step := OneTurn(s, id, policy, last, rounds[0]);
      if step.goesOn {
        BoundedTurns(step.tables, id, policy, step.task.value, rounds[1..], turn + 1);
      }
    }
  }

  lemma CreatedKeeps(s: Tables, id: string, p: Pair, round: Round)
    requires Coherent(s) && id in s.rows && Within(s.rows[id], p) && forall d :: d in round.during ==> Fits(s, d)
    ensures Coherent(AfterCreate(s, id, p, round)) && SameThreads(s, AfterCreate(s, id, p, round))
  {
    hide Coherent, Appended, AppendedAll;
    AppendAllKeeps(s, round.during);
    if round.outcome.Made? || round.outcome.Unreported? {
      var s1, d := AppendedAll(s, round.during), Draft(id, round.taskId, p.sender, p.target, Created);
      AppendKeepsCoherent(s1, d);
      AppendedSame(s1, d);
      SameThreadsFollow(s, s1, Appended(s1, d));
    }
  }

  /** One turn of the loop, against any interference: the thread is read coherent, its pair stays inside
      the thread, and what follows starts from coherent tables again. */
  lemma RoundKeeps(s: Tables, id: string, policy: Policy, last: Pair, rounds: seq<Round>)
    requires Coherent(s) && id in s.rows && rounds != [] && OthersFit(s, rounds)
    ensures var step := OneTurn(s, id, policy, last, rounds[0]);
            && Coherent(step.tables) && SameThreads(s, step.tables) && OthersFit(step.tables, rounds[1..])
            && (step.task.Some? ==> Within(s.rows[id], step.task.value) && MayContinue(policy, rounds[0].seen)
                                    && (policy.stopOnSameActorRepeat ==> step.task.value.sender != last.sender))
  {
    hide Coherent, AppendedAll, AfterCreate, Fits, DeriveThreadContinuationPair;
    var before := rounds[0].before;
    assert forall d :: d in before || d in rounds[0].during ==> Fits(s, d);
    AppendAllKeeps(s, before);
    var s1 := AppendedAll(s, before);
    CoherentDerives(s1, id);
    var p := DeriveThreadContinuationPair(s1.rows[id], "", "").value;
    StillFit(s, s1, rounds[0].during);
    CreatedKeeps(s1, id, p, rounds[0]);
    SameThreadsFollow(s, s1, AfterCreate(s1, id, p, rounds[0]));
    OthersStillFit(s, OneTurn(s, id, policy, last, rounds[0]).tables, rounds);
  }

  lemma OthersStillFit(s: Tables, s': Tables, rounds: seq<Round>)
    requires SameThreads(s, s') && rounds != [] && OthersFit(s, rounds)
    ensures OthersFit(s', rounds[1..])
  {
    var rest := rounds[1..];
    forall i, d | 0 <= i < |rest| && (d in rest[i].before || d in rest[i].during) ensures Fits(s', d) {
      assert rest[i] == rounds[i + 1];
      assert Fits(s, d);
    }
  }

  lemma CoherentDerives(s: Tables, id: string)
    requires Coherent(s) && id in s.rows
    ensures var row, p := s.rows[id], DeriveThreadContinuationPair(s.rows[id], "", "");
            p.Some? && Within(row, p.value) && p.value.sender == if row.lastTarget != "" then row.lastTarget else row.agentA
  {
    hide DeriveThreadContinuationPair;
    CoherentTarget(s.rows[id], TurnsOf(s.turns, id));
    ContinuationIsExact(s.rows[id], "", "");
  }

  lemma CoherentTarget(row: ThreadRecord, own: seq<Turn>)
    requires ThreadCoherent(row, own)
    ensures row.lastTarget in {"", row.agentA, row.agentB}
    ensures own != [] ==> row.lastTarget != ""
  {
    if own != [] {
      assert Within(row, Pair(own[|own| - 1].draft.sender, own[|own| - 1].draft.target));
    }
  }

  /** Whatever others do to the thread: every task of the loop is between its two agents and was created
      only after the one before it had been seen to allow it; with the same-actor guard no agent speaks
      twice in a row; and the thread stays coherent. */
  lemma {:induction false} HandoffIsSafe(s: Tables, id: string, policy: Policy, last: Pair, rounds: seq<Round>, turn: int)
    requires Coherent(s) && id in s.rows && OthersFit(s, rounds)
    ensures var (s', tasks) := Handoff(s, id, policy, last, rounds, turn);
            && Coherent(s') && |tasks| <= |rounds|
            && (forall i :: 0 <= i < |tasks| ==> Within(s.rows[id], tasks[i]) && MayContinue(policy, rounds[i].seen))
            && (policy.stopOnSameActorRepeat ==> NoRepeat([last] + tasks))
    decreases rounds
  {
    hide Coherent, OneTurn, NoRepeat, MayContinue;
    NoRepeatOfOne(last);
    if rounds != [] && turn < policy.maxTurns {
      RoundKeeps(s, id, policy, last, rounds);
      var step := OneTurn(s, id, policy, last, rounds[0]);
      if step.task.Some? {
        var p := step.task.value;
        NoRepeatOfOne(p);
        NoRepeatPrepend(last, [p] + []);
        if step.goesOn {
          HandoffIsSafe(step.tables, id, policy, p, rounds[1..], turn + 1);
          NoRepeatPrepend(last, [p] + Handoff(step.tables, id, policy, p, rounds[1..], turn + 1).1);
        }
        assert [p] + [] == [p];
      }
    }
  }

  predicate NoRepeat(tasks: seq<Pair>) {
    forall i :: 0 <= i < |tasks| - 1 ==> tasks[i + 1].sender != tasks[i].sender
  }

  lemma NoRepeatOfOne(last: Pair)
    ensures NoRepeat([last] + []) && NoRepeat([last])
  {
  }

  lemma NoRepeatPrepend(last: Pair, tasks: seq<Pair>)
    requires tasks != []
    ensures NoRepeat([last] + tasks) <==> NoRepeat(tasks) && tasks[0].sender != last.sender
  {
    var all := [last] + tasks;
    assert forall i :: 0 <= i < |tasks| ==> all[i + 1] == tasks[i];
    if NoRepeat(all) {
      forall i | 0 <= i < |tasks| - 1 ensures tasks[i + 1].sender != tasks[i].sender {
        assert all[i + 2].sender != all[i + 1].sender;
      }
      assert all[1].sender != all[0].sender;
    }
  }

  // ---- In isolation ----

  predicate Undisturbed(round: Round) {
    round.before == [] && round.during == []
  }

  /** Each task answers the one before it: the two directions take turns. */
  predicate Alternates(last: Pair, tasks: seq<Pair>)
    decreases tasks
  {
    tasks == [] || (tasks[0] == Swap(last) && Alternates(tasks[0], tasks[1..]))
  }

  /** The newest turn of the thread is `last`. */
  predicate Newest(s: Tables, id: string, last: Pair) {
    id in s.rows && s.rows[id].lastActor == last.sender && s.rows[id].lastTarget == last.target
  }

  lemma NewestAnswers(s: Tables, id: string, last: Pair)
    requires Coherent(s) && Newest(s, id, last) && Within(s.rows[id], last)
    ensures DeriveThreadContinuationPair(s.rows[id], "", "") == Some(Swap(last)) && last.sender != last.target
  {
    CoherentDerives(s, id);
    assert TwoAgents(s.rows[id]) by {
      assert ThreadCoherent(s.rows[id], TurnsOf(s.turns, id));
    }
  }

  lemma NewestAfter(s: Tables, d: Draft)
    requires d.threadId in s.rows
    ensures Newest(Appended(s, d), d.threadId, Pair(d.sender, d.target))
  {
  }

  /** With nobody else on the thread the agents alternate strictly, and the loop ends early only for a
      reason: it makes its `max_turns` tasks unless a task was seen in a state that stops it or a
      creation failed. */
  lemma {:induction false} AloneItAlternates(s: Tables, id: string, policy: Policy, last: Pair, rounds: seq<Round>, turn: int)
    requires Coherent(s) && Newest(s, id, last) && Within(s.rows[id], last) && turn <= policy.maxTurns
    requires forall i :: 0 <= i < |rounds| ==> Undisturbed(rounds[i])
    ensures var tasks := Handoff(s, id, policy, last, rounds, turn).1;
            && |tasks| <= |rounds| && Alternates(last, tasks)
            && (turn + |tasks| < policy.maxTurns && |tasks| < |rounds| ==>
                  !MayContinue(policy, rounds[|tasks|].seen) || rounds[|tasks|].outcome.Refused?
                  || (tasks != [] && !rounds[|tasks| - 1].outcome.Made?))
    decreases rounds
  {
    hide Coherent, OneTurn, MayContinue;
    if rounds != [] && turn < policy.maxTurns {
      assert Undisturbed(rounds[0]);
      AloneOneTurn(s, id, policy, last, rounds[0]);
      var step := OneTurn(s, id, policy, last, rounds[0]);
      if step.goesOn {
        var p := step.task.value;
        AloneItAlternates(step.tables, id, policy, p, rounds[1..], turn + 1);
        var rest := Handoff(step.tables, id, policy, p, rounds[1..], turn + 1).1;
        assert ([p] + rest)[1..] == rest;
        assert |rest| < |rounds| - 1 ==> rounds[1..][|rest|] == rounds[|rest| + 1];
        assert rest != [] ==> rounds[1..][|rest| - 1] == rounds[|rest|];
      }
    }
  }

  lemma AloneOneTurn(s: Tables, id: string, policy: Policy, last: Pair, round: Round)
    requires Coherent(s) && Newest(s, id, last) && Within(s.rows[id], last) && Undisturbed(round)
    ensures var step := OneTurn(s, id, policy, last, round);
            && step.goesOn == (MayContinue(policy, round.seen) && round.outcome.Made?)
            && (step.task.Some? <==> MayContinue(policy, round.seen) && !round.outcome.Refused?)
            && (step.task.Some? ==> step.task.value == Swap(last))
            && (step.goesOn ==> Coherent(step.tables) && Newest(step.tables, id, Swap(last)) && Within(step.tables.rows[id], Swap(last)))
  {
    hide Coherent, DeriveThreadContinuationPair, Appended;
    var d := Draft(id, round.taskId, last.target, last.sender, Created);
    NewestAnswers(s, id, last);
    NewestAfter(s, d);
    AppendedSame(s, d);
    AnswerFits(s, d, last);
    AppendKeepsCoherent(s, d);
  }

  /** Alternation is not kept under interference unless the same-actor guard is on: one foreign turn is
      enough for the loop to let the same agent speak twice in a row. */
  lemma InterferenceBreaksAlternation(s: Tables, id: string, policy: Policy, last: Pair, foreign: string, taskId: string)
    requires Coherent(s) && Newest(s, id, last) && Within(s.rows[id], last) && policy.maxTurns >= 2
    ensures var answer := Draft(id, foreign, last.target, last.sender, Completed);
            var round := Round(Some(Completed), [answer], [], taskId, Made);
            && Fits(s, answer)
            && Handoff(s, id, policy, last, [round], 1).1 == if policy.stopOnSameActorRepeat then [] else [last]
  {
    var answer := Draft(id, foreign, last.target, last.sender, Completed);
    var round := Round(Some(Completed), [answer], [], taskId, Made);
    hide Coherent, DeriveThreadContinuationPair, Appended, Fits;
    AnswerFits(s, answer, last);
    AppendKeepsCoherent(s, answer);
    NewestAfter(s, answer);
    AppendedSame(s, answer);
    NewestAnswers(Appended(s, answer), id, Swap(last));
    assert [answer][1..] == [] && [round][1..] == [];
    assert AppendedAll(s, [answer]) == Appended(s, answer);
    var s2 := AfterCreate(Appended(s, answer), id, last, round);
    assert Handoff(s2, id, policy, last, [], 2).1 == [];
    assert [last] + [] == [last];
  }

  lemma AnswerFits(s: Tables, answer: Draft, last: Pair)
    requires answer.threadId in s.rows && Within(s.rows[answer.threadId], last) && Pair(answer.sender, answer.target) == Swap(last)
    ensures Fits(s, answer)
  {
  }

  // ---- A whole request ----

  /** One continue request: the pair is derived, its task is created, and the loop takes over when the
      request asks for it. */
  function Continued(s: Tables, id: string, policy: Policy, sender: string, target: string, first: Round, rounds: seq<Round>)
    : (r: (Tables, seq<Pair>))
  {
    if id !in s.rows then (s, [])
    else
      var p := DeriveThreadContinuationPair(s.rows[id], sender, target);
      if p == None then (s, [])
      else
        var s1 := AfterCreate(s, id, p.value, first);
        if first.outcome.Refused? then (s1, [])
        else if !first.outcome.Made? || !policy.autoContinue || policy.Normalized().maxTurns <= 1 then (s1, [p.value])
        else
          var (s', rest) := Handoff(s1, id, policy.Normalized(), p.value, rounds, 1);
          (s', [p.value] + rest)
  }

  /** A request, whatever it meets, creates at most `max_turns` tasks in all, and one when it does not
      ask for the loop or gives no positive bound. */
  lemma RequestIsBounded(s: Tables, id: string, policy: Policy, sender: string, target: string, first: Round, rounds: seq<Round>)
    ensures var tasks := Continued(s, id, policy, sender, target, first, rounds).1;
            |tasks| <= if policy.autoContinue && policy.maxTurns > 1 then policy.maxTurns else 1
  {
    hide DeriveThreadContinuationPair, AfterCreate, Handoff;
    if id in s.rows && DeriveThreadContinuationPair(s.rows[id], sender, target).Some? {
      var p := DeriveThreadContinuationPair(s.rows[id], sender, target).value;
      BoundedTurns(AfterCreate(s, id, p, first), id, policy.Normalized(), p, rounds, 1);
    }
  }

  /** On a coherent thread with nobody else about, the tasks of one request alternate strictly from its
      first one on. */
  lemma RequestAlternates(s: Tables, id: string, policy: Policy, sender: string, target: string, first: Round, rounds: seq<Round>)
    requires Coherent(s) && id in s.rows && Undisturbed(first) && forall i :: 0 <= i < |rounds| ==> Undisturbed(rounds[i])
    ensures var tasks := Continued(s, id, policy, sender, target, first, rounds).1;
            tasks != [] ==> Within(s.rows[id], tasks[0]) && Alternates(tasks[0], tasks[1..])
  {
    hide DeriveThreadContinuationPair, Handoff, Appended, Coherent;
    var r := DeriveThreadContinuationPair(s.rows[id], sender, target);
    FirstPairFits(s, id, sender, target);
    if r.Some? && first.outcome.Made? {
      var d := Draft(id, first.taskId, r.value.sender, r.value.target, Created);
      AnswerFits(s, d, Swap(r.value));
      AppendKeepsCoherent(s, d);
      NewestAfter(s, d);
      AppendedSame(s, d);
      AloneItAlternates(Appended(s, d), id, policy.Normalized(), r.value, rounds, 1);
      var rest := Handoff(Appended(s, d), id, policy.Normalized(), r.value, rounds, 1).1;
      assert ([r.value] + rest)[1..] == rest;
    }
  }

  lemma FirstPairFits(s: Tables, id: string, sender: string, target: string)
    requires Coherent(s) && id in s.rows
    ensures var r := DeriveThreadContinuationPair(s.rows[id], sender, target);
            r.Some? ==> Within(s.rows[id], r.value)
  {
    hide DeriveThreadContinuationPair;
    CoherentTarget(s.rows[id], TurnsOf(s.turns, id));
    ContinuationIsExact(s.rows[id], sender, target);
  }

  /** How many tasks the loop adds, read off what its turns meet: each of those turns saw the task before it in
      a state that allows another and had its creation go through, all but the last one reported; and where
      neither the bound nor the turns at hand end the count, the next turn is one that stops the loop. */
  ghost predicate AddsExactly(policy: Policy, rounds: seq<Round>, bound: int, c: int) {
    && 0 <= c <= |rounds| && c <= bound
    && (forall i :: 0 <= i < c ==> Lets(policy, rounds[i]))
    && (forall i :: 0 <= i < c - 1 ==> rounds[i].outcome == Made)
    && (c < |rounds| && c < bound && (c > 0 ==> rounds[c - 1].outcome == Made) ==> !Lets(policy, rounds[c]))
  }

  /** The turn saw the last task, not awaiting input, and completed if errors stop the loop; and its creation
      was not refused. */
  predicate Lets(policy: Policy, round: Round) {
    && round.outcome != Refused && round.seen != None && round.seen != Some(AwaitingInput)
    && (policy.stopOnTerminalError ==> round.seen == Some(Completed))
  }

  /** How many of the tasks have a turn: all but a last one that failed before its turn. */
  function Turned(taken: seq<Round>): int {
    if taken != [] && taken[|taken| - 1].outcome == Orphaned then |taken| - 1 else |taken|
  }

  /** What a thread's turns gain with `tasks`: one turn each, in order, under the next indices, with the task's
      id, sender and target, and created. */
  ghost predicate GainsTurns(before: seq<Turn>, after: seq<Turn>, id: string, tasks: seq<Pair>, taken: seq<Round>)
    requires |taken| == |tasks|
  {
    && |after| == |before| + Turned(taken) && before <= after
    && forall k :: 0 <= k < Turned(taken) ==>
         after[|before| + k] == Turn(|before| + k + 1, Draft(id, taken[k].taskId, tasks[k].sender, tasks[k].target, Created))
  }

  /** The thread is active on its newest task, and no other thread's row changes. */
  ghost predicate GainsRow(s: Tables, s': Tables, id: string, tasks: seq<Pair>, taken: seq<Round>)
    requires |taken| == |tasks|
  {
    var n := Turned(taken);
    && s'.rows.Keys == s.rows.Keys && (forall other :: other in s.rows && other != id ==> s'.rows[other] == s.rows[other])
    && id in s.rows && (n == 0 ==> s'.rows[id] == s.rows[id])
    && (n > 0 ==> s'.rows[id] == ThreadRecord(s.rows[id].agentA, s.rows[id].agentB, Active,
                                              taken[n - 1].taskId, tasks[n - 1].sender, tasks[n - 1].target))
  }

  ghost predicate Gains(s: Tables, s': Tables, id: string, tasks: seq<Pair>, taken: seq<Round>)
    requires |taken| == |tasks|
  {
    && GainsTurns(TurnsOf(s.turns, id), TurnsOf(s'.turns, id), id, tasks, taken) && GainsRow(s, s', id, tasks, taken)
    && forall other :: other != id ==> TurnsOf(s'.turns, other) == TurnsOf(s.turns, other)
  }

  lemma TurnGained(before: seq<Turn>, id: string, p: Pair, round: Round)
    requires round.outcome != Orphaned
    ensures GainsTurns(before, before + [Turn(|before| + 1, Draft(id, round.taskId, p.sender, p.target, Created))], id, [p], [round])
  {
    var turn := Turn(|before| + 1, Draft(id, round.taskId, p.sender, p.target, Created));
    assert (before + [turn])[|before|] == turn && Turned([round]) == 1;
  }

  lemma RowGained(s: Tables, id: string, p: Pair, round: Round)
    requires id in s.rows && round.outcome != Orphaned
    ensures GainsRow(s, Appended(s, Draft(id, round.taskId, p.sender, p.target, Created)), id, [p], [round])
  {
    hide TurnsOf, MaxIndex;
  }

  lemma NothingOrphaned(s: Tables, id: string, p: Pair, round: Round)
    requires id in s.rows && round.outcome == Orphaned
    ensures Gains(s, s, id, [p], [round])
  {
  }

  lemma CoherentMax(s: Tables, id: string)
    requires Coherent(s) && id in s.rows
    ensures MaxIndex(TurnsOf(s.turns, id)) == |TurnsOf(s.turns, id)|
  {
    assert ThreadCoherent(s.rows[id], TurnsOf(s.turns, id));
    MaxOfNumbered(TurnsOf(s.turns, id));
  }

  /** One creation with nobody else about. */
  lemma OneGains(s: Tables, id: string, p: Pair, round: Round)
    requires Coherent(s) && id in s.rows && Undisturbed(round) && round.outcome != Refused
    ensures Gains(s, AfterCreate(s, id, p, round), id, [p], [round])
  {
    hide Coherent, TurnsOf, Appended, GainsTurns, GainsRow;
    if round.outcome == Orphaned {
      NothingOrphaned(s, id, p, round);
    } else {
      var d := Draft(id, round.taskId, p.sender, p.target, Created);
      CoherentMax(s, id);
      TurnGained(TurnsOf(s.turns, id), id, p, round);
      RowGained(s, id, p, round);
      forall other ensures other != id ==> TurnsOf(Appended(s, d).turns, other) == TurnsOf(s.turns, other) {
        AppendedTurns(s, d, other);
      }
      AppendedTurns(s, d, id);
    }
  }

  lemma NoneGained(s: Tables, id: string)
    requires id in s.rows
    ensures Gains(s, s, id, [], [])
  {
  }

  lemma GainsFollow(s: Tables, s1: Tables, s2: Tables, id: string, p: Pair, round: Round, tasks: seq<Pair>, taken: seq<Round>)
    requires |tasks| == |taken| && round.outcome != Orphaned
    requires Gains(s, s1, id, [p], [round]) && Gains(s1, s2, id, tasks, taken)
    ensures Gains(s, s2, id, [p] + tasks, [round] + taken)
  {
    hide TurnsOf;
    TurnsFollow(TurnsOf(s.turns, id), TurnsOf(s1.turns, id), TurnsOf(s2.turns, id), id, p, round, tasks, taken);
    hide GainsTurns;
    RowsFollow(s, s1, s2, id, p, round, tasks, taken);
  }

  lemma RowsFollow(s: Tables, s1: Tables, s2: Tables, id: string, p: Pair, round: Round, tasks: seq<Pair>, taken: seq<Round>)
    requires |tasks| == |taken| && round.outcome != Orphaned
    requires GainsRow(s, s1, id, [p], [round]) && GainsRow(s1, s2, id, tasks, taken)
    ensures GainsRow(s, s2, id, [p] + tasks, [round] + taken)
  {
    var all, rounds := [p] + tasks, [round] + taken;
    assert forall k :: 0 < k < |all| ==> all[k] == tasks[k - 1] && rounds[k] == taken[k - 1];
    assert Turned(rounds) == Turned(taken) + 1;
  }

  lemma TurnsFollow(before: seq<Turn>, mid: seq<Turn>, after: seq<Turn>, id: string, p: Pair, round: Round, tasks: seq<Pair>, taken: seq<Round>)
    requires |tasks| == |taken| && round.outcome != Orphaned
    requires GainsTurns(before, mid, id, [p], [round]) && GainsTurns(mid, after, id, tasks, taken)
    ensures GainsTurns(before, after, id, [p] + tasks, [round] + taken)
  {
    var all, rounds := [p] + tasks, [round] + taken;
    assert forall k :: 0 < k < |all| ==> all[k] == tasks[k - 1] && rounds[k] == taken[k - 1];
    assert Turned(rounds) == Turned(taken) + 1 && Turned([round]) == 1;
    assert after[|before|] == mid[|before|];
    forall k | 0 < k < Turned(rounds)
      ensures after[|before| + k] == Turn(|before| + k + 1, Draft(id, rounds[k].taskId, all[k].sender, all[k].target, Created))
    {
      assert after[|mid| + (k - 1)] == Turn(|mid| + (k - 1) + 1, Draft(id, taken[k - 1].taskId, tasks[k - 1].sender, tasks[k - 1].target, Created));
    }
  }

  lemma AloneOneTurnTables(s: Tables, id: string, policy: Policy, last: Pair, round: Round)
    requires Coherent(s) && Newest(s, id, last) && Within(s.rows[id], last) && Undisturbed(round)
    ensures var step := OneTurn(s, id, policy, last, round);
            && (step.task.Some? <==> Lets(policy, round)) && (step.goesOn <==> Lets(policy, round) && round.outcome == Made)
            && (step.task.Some? ==> step.tables == AfterCreate(s, id, step.task.value, round))
            && (step.task == None ==> step.tables == s)
  {
    hide Coherent, DeriveThreadContinuationPair, Appended;
    NewestAnswers(s, id, last);
  }

  lemma AddsOneMore(policy: Policy, rounds: seq<Round>, bound: int, c: int)
    requires rounds != [] && bound > 0 && Lets(policy, rounds[0]) && rounds[0].outcome == Made
    requires AddsExactly(policy, rounds[1..], bound - 1, c)
    ensures AddsExactly(policy, rounds, bound, c + 1)
  {
    assert forall i :: 0 < i < |rounds| ==> rounds[i] == rounds[1..][i - 1];
  }

  lemma {:induction false} HandoffIsExact(s: Tables, id: string, policy: Policy, last: Pair, rounds: seq<Round>, turn: int)
    requires Coherent(s) && Newest(s, id, last) && Within(s.rows[id], last) && turn <= policy.maxTurns
    requires forall i :: 0 <= i < |rounds| ==> Undisturbed(rounds[i])
    ensures var (s', tasks) := Handoff(s, id, policy, last, rounds, turn);
            AddsExactly(policy, rounds, policy.maxTurns - turn, |tasks|) && Gains(s, s', id, tasks, rounds[..|tasks|])
    decreases rounds
  {
    hide Coherent, OneTurn, Gains, Lets;
    NoneGained(s, id);
    if rounds != [] && turn < policy.maxTurns {
      assert Undisturbed(rounds[0]);
      AloneOneTurn(s, id, policy, last, rounds[0]);
      AloneOneTurnTables(s, id, policy, last, rounds[0]);
      LetsNotRefused(policy, rounds[0]);
      var step := OneTurn(s, id, policy, last, rounds[0]);
      if step.task.Some? {
        var p := step.task.value;
        OneGains(s, id, p, rounds[0]);
        assert rounds[..1] == [rounds[0]];
        if step.goesOn {
          HandoffIsExact(step.tables, id, policy, p, rounds[1..], turn + 1);
          var (s', rest) := Handoff(step.tables, id, policy, p, rounds[1..], turn + 1);
          AddsOneMore(policy, rounds, policy.maxTurns - turn, |rest|);
          GainsFollow(s, step.tables, s', id, p, rounds[0], rest, rounds[1..][..|rest|]);
          assert [rounds[0]] + rounds[1..][..|rest|] == rounds[..|rest| + 1];
        }
      }
    }
  }

  lemma LetsNotRefused(policy: Policy, round: Round)
    ensures Lets(policy, round) ==> round.outcome != Refused
  {
  }

  /** A whole request with nobody else about, exactly. A pair that does not fit, or a refused first creation,
      leaves everything as it is. Otherwise the first task is the derived pair's; alone it stays unless the
      request asks for more, reported its first task and has a bound above one; and then the loop adds
      exactly what AddsExactly says. The thread's turns are those tasks. */
  lemma RequestIsExact(s: Tables, id: string, policy: Policy, sender: string, target: string, first: Round, rounds: seq<Round>)
    requires Coherent(s) && id in s.rows && Undisturbed(first) && forall i :: 0 <= i < |rounds| ==> Undisturbed(rounds[i])
    ensures var (s', tasks) := Continued(s, id, policy, sender, target, first, rounds);
            var r := DeriveThreadContinuationPair(s.rows[id], sender, target);
            && (r == None || first.outcome == Refused ==> tasks == [] && s' == s)
            && (r.Some? && first.outcome != Refused ==>
                  && tasks != [] && tasks[0] == r.value
                  && (if first.outcome == Made && policy.autoContinue && policy.maxTurns > 1
                      then AddsExactly(policy, rounds, policy.maxTurns - 1, |tasks| - 1) else |tasks| == 1)
                  && |tasks| <= |rounds| + 1 && Gains(s, s', id, tasks, [first] + rounds[..|tasks| - 1]))
  {
    hide DeriveThreadContinuationPair, Handoff, Appended, Coherent, Gains, Lets;
    var r := DeriveThreadContinuationPair(s.rows[id], sender, target);
    FirstPairFits(s, id, sender, target);
    if r.Some? && first.outcome != Refused {
      OneGains(s, id, r.value, first);
      assert [first] + rounds[..0] == [first];
      if first.outcome == Made && policy.autoContinue && policy.maxTurns > 1 {
        var d := Draft(id, first.taskId, r.value.sender, r.value.target, Created);
        AnswerFits(s, d, Swap(r.value));
        AppendKeepsCoherent(s, d);
        NewestAfter(s, d);
        AppendedSame(s, d);
        HandoffIsExact(Appended(s, d), id, policy.Normalized(), r.value, rounds, 1);
        var (s', rest) := Handoff(Appended(s, d), id, policy.Normalized(), r.value, rounds, 1);
        GainsFollow(s, Appended(s, d), s', id, r.value, first, rest, rounds[..|rest|]);
      }
    }
  }

  /** When every task is seen completed and every creation works, a request for the loop makes all its
      `max_turns` tasks. */
  lemma RequestMakesAll(s: Tables, id: string, policy: Policy, sender: string, target: string, first: Round, rounds: seq<Round>)
    requires Coherent(s) && id in s.rows && Undisturbed(first) && forall i :: 0 <= i < |rounds| ==> Undisturbed(rounds[i])
    requires DeriveThreadContinuationPair(s.rows[id], sender, target).Some? && first.outcome == Made
    requires policy.autoContinue && policy.maxTurns > 1 && |rounds| >= policy.maxTurns - 1
    requires forall i :: 0 <= i < |rounds| ==> rounds[i].seen == Some(Completed) && rounds[i].outcome == Made
    ensures |Continued(s, id, policy, sender, target, first, rounds).1| == policy.maxTurns
  {
    hide DeriveThreadContinuationPair, Continued, Coherent, Gains;
    RequestIsExact(s, id, policy, sender, target, first, rounds);
  }

  // ---- The store and the loop ----

  class ThreadStore {
    var rows: map<string, ThreadRecord>
    var turns: seq<Turn>

    function Contents(): Tables
      reads this
    {
      Tables(rows, turns)
    }

    constructor ()
      ensures Contents() == Tables(map[], [])
    {
      rows, turns := map[], [];
    }

    method InsertThread(id: string, row: ThreadRecord) returns (ok: bool)
      modifies this
      ensures ok <==> id !in old(rows)
      ensures rows == (if ok then old(rows)[id := row] else old(rows)) && turns == old(turns)
    {
      if id in rows { return false; }
      rows := rows[id := row];
      return true;
    }

    /** SELECT COALESCE(MAX(turn_index), 0) + 1 for one thread. */
    method NextTurnIndex(threadId: string) returns (next: int)
      ensures next == MaxIndex(TurnsOf(turns, threadId)) + 1
    {
      var highest := 0;
      for i := 0 to |turns|
        invariant highest == MaxIndex(TurnsOf(turns[..i], threadId))
      {
        assert turns[..i + 1][..i] == turns[..i];
        var own := TurnsOf(turns[..i], threadId);
        assert (own + [turns[i]])[..|own|] == own;
        if turns[i].draft.threadId == threadId && highest < turns[i].index {
          highest := turns[i].index;
        }
      }
      assert turns[..|turns|] == turns;
      next := highest + 1;
    }

    /** Thread progress and turn in one transaction. */
    method AppendThreadTurnAndUpdateThread(d: Draft, fault: TxFault) returns (ok: bool)
      modifies this
      ensures ok <==> fault == NoFault
      ensures Contents() == if ok then Appended(old(Contents()), d) else old(Contents())
    {
      if fault == BeginFails { return false; }
      var savedRows, savedTurns := rows, turns;
      var committed := false;
      if fault != UpdateFails {
        if d.threadId in rows {
          rows := rows[d.threadId :=
            rows[d.threadId].(lastTask := d.taskId, lastActor := d.sender, lastTarget := d.target, status := Active)];
        }
        var index := NextTurnIndex(d.threadId);
        if fault != InsertFails {
          turns := turns + [Turn(index, d)];
          committed := fault != CommitFails;
        }
      }
      if !committed {
        rows, turns := savedRows, savedTurns;
      }
      return committed;
    }
  }

  /** Turns that others append. */
  method AppendForeign(store: ThreadStore, ds: seq<Draft>)
    modifies store
    ensures store.Contents() == AppendedAll(old(store.Contents()), ds)
  {
    var i := 0;
    while i < |ds|
      invariant 0 <= i <= |ds|
      invariant AppendedAll(store.Contents(), ds[i..]) == AppendedAll(old(store.Contents()), ds)
    {
      assert ds[i..][1..] == ds[i + 1..];
      var _ := store.AppendThreadTurnAndUpdateThread(ds[i], NoFault);
      i := i + 1;
    }
  }

  /** The part of CreateTask that concerns the thread. */
  method CreateTask(store: ThreadStore, id: string, p: Pair, round: Round)
    modifies store
    ensures store.Contents() == AfterCreate(old(store.Contents()), id, p, round)
  {
    AppendForeign(store, round.during);
    if round.outcome.Made? || round.outcome.Unreported? {
      var _ := store.AppendThreadTurnAndUpdateThread(Draft(id, round.taskId, p.sender, p.target, Created), NoFault);
    }
  }

  /** One turn of the controller loop. */
  method TakeTurn(store: ThreadStore, id: string, policy: Policy, last: Pair, round: Round) returns (task: Option<Pair>, goesOn: bool)
    modifies store
    ensures Step(store.Contents(), task, goesOn) == OneTurn(old(store.Contents()), id, policy, last, round)
  {
    hide DeriveThreadContinuationPair, AppendedAll, AfterCreate;
    if !MayContinue(policy, round.seen) { return None, false; }
    AppendForeign(store, round.before);
    if id !in store.rows { return None, false; }
    var p := DeriveThreadContinuationPair(store.rows[id], "", "");
    if p == None || (policy.stopOnSameActorRepeat && p.value.sender == last.sender) { return None, false; }
    CreateTask(store, id, p.value, round);
    return if round.outcome.Refused? then None else p, round.outcome.Made?;
  }

  /** The controller loop, over a list of what each of its turns meets. */
  method ContinueThreadAutoHandoff(store: ThreadStore, id: string, policy: Policy, previous: Pair, rounds: seq<Round>)
    returns (tasks: seq<Pair>)
    modifies store
    ensures (store.Contents(), tasks) == Handoff(old(store.Contents()), id, policy, previous, rounds, 1)
  {
    hide OneTurn, Handoff;
    tasks := [];
    var lastTask := previous;
    var turn := 1;
    ghost var all := Handoff(store.Contents(), id, policy, previous, rounds, 1);
    assert rounds[0..] == rounds && [] + all.1 == all.1;
    while turn < policy.maxTurns
      invariant 0 <= turn - 1 <= |rounds|
      invariant Resumes(all, tasks, Handoff(store.Contents(), id, policy, lastTask, rounds[turn - 1..], turn))
    {
      if turn - 1 == |rounds| { break; }
      assert rounds[turn - 1..][0] == rounds[turn - 1] && rounds[turn - 1..][1..] == rounds[turn..];
      HandoffUnfolds(store.Contents(), id, policy, lastTask, rounds[turn - 1..], turn);
      var task, goesOn := TakeTurn(store, id, policy, lastTask, rounds[turn - 1]);
      if task.Some? {
        ghost var rest := if goesOn then Handoff(store.Contents(), id, policy, task.value, rounds[turn..], turn + 1).1 else [];
        assert tasks + ([task.value] + rest) == tasks + [task.value] + rest && [task.value] + [] == [task.value];
        tasks := tasks + [task.value];
      }
      if !goesOn { break; }
      lastTask := task.value;
      turn := turn + 1;
    }
    assert tasks + [] == tasks;
    HandoffStops(store.Contents(), id, policy, lastTask, rounds[turn - 1..], turn);
  }

  lemma HandoffStops(s: Tables, id: string, policy: Policy, last: Pair, rounds: seq<Round>, turn: int)
    ensures turn >= policy.maxTurns || rounds == [] ==> Handoff(s, id, policy, last, rounds, turn) == (s, [])
  {
  }

  lemma HandoffUnfolds(s: Tables, id: string, policy: Policy, last: Pair, rounds: seq<Round>, turn: int)
    requires turn < policy.maxTurns && rounds != []
    ensures var step, all := OneTurn(s, id, policy, last, rounds[0]), Handoff(s, id, policy, last, rounds, turn);
            if !step.goesOn then all == (step.tables, if step.task == None then [] else [step.task.value])
            else var rest := Handoff(step.tables, id, policy, step.task.value, rounds[1..], turn + 1);
                 all == (rest.0, [step.task.value] + rest.1)
  {
  }

  method ContinueThread(store: ThreadStore, id: string, policy: Policy, sender: string, target: string, first: Round, rounds: seq<Round>)
    returns (tasks: seq<Pair>)
    modifies store
    ensures (store.Contents(), tasks) == Continued(old(store.Contents()), id, policy, sender, target, first, rounds)
  {
    hide DeriveThreadContinuationPair, AfterCreate, Handoff;
    if id !in store.rows { return []; }
    var p := DeriveThreadContinuationPair(store.rows[id], sender, target);
    if p == None { return []; }
    CreateTask(store, id, p.value, first);
    if first.outcome.Refused? { return []; }
    tasks := [p.value];
    if first.outcome.Made? && policy.autoContinue && policy.Normalized().maxTurns > 1 {
      var rest := ContinueThreadAutoHandoff(store, id, policy.Normalized(), p.value, rounds);
      tasks := tasks + rest;
    }
  }

  /** What is done so far and what is left make up the whole. */
  ghost predicate Resumes(all: (Tables, seq<Pair>), tasks: seq<Pair>, rest: (Tables, seq<Pair>)) {
    all == (rest.0, tasks + rest.1)
  }
}
