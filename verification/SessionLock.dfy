/** The in-process lock that lets one task at a time prompt a sticky session. */
module SessionLock {
  import opened TaskTypes

  class SessionCoordinator {
    var active: map<string, string>

    constructor ()
      ensures active == map[]
    {
      active := map[];
    }

    method TryAcquire(scope: string, taskId: string) returns (ok: bool)
      modifies this
      ensures active == Acquired(old(active), scope, taskId)
      ensures ok <==> Holds(active, scope, taskId)
    {
      if scope in active && active[scope] != taskId {
        return false;
      }
      active := active[scope := taskId];
      return true;
    }

    method Release(scope: string, taskId: string)
      modifies this
      ensures active == Released(old(active), scope, taskId)
    {
      if scope in active && active[scope] == taskId {
        active := active - {scope};
      }
    }
  }

  predicate Holds(active: map<string, string>, scope: string, taskId: string) {
    scope in active && active[scope] == taskId
  }

  function Acquired(active: map<string, string>, scope: string, taskId: string): map<string, string> {
    if scope in active then active else active[scope := taskId]
  }

  function Released(active: map<string, string>, scope: string, taskId: string): map<string, string> {
    if Holds(active, scope, taskId) then active - {scope} else active
  }

  /** A submission that fails after taking the lock leaves the table as it found it: a free scope is free
      again, and a scope that another task holds was never touched. */
  lemma FailedSubmitGivesBack(active: map<string, string>, scope: string, taskId: string)
    requires !Holds(active, scope, taskId)
    ensures Released(Acquired(active, scope, taskId), scope, taskId) == active
  {
    assert scope !in active ==> active[scope := taskId] - {scope} == active;
  }

  // ---- Any number of tasks over any number of scopes ----

  /** How the loop of a run ends. */
  datatype Exit = Running | Cancelled | SubscriptionLost | PromptFailed | IdleTimeout | Drained | TerminalSeen

  /** The ways out of the loop that release the session. */
  predicate Frees(exit: Exit) {
    exit.PromptFailed? || exit.IdleTimeout? || exit.Drained? || exit.TerminalSeen?
  }

  /** Where a task stands with its scope. `Stranded` is a run that went without giving the lock back. */
  datatype Stage = Submitting(scope: string) | Live(scope: string) | Stranded(scope: string) | Rejected | Over
  {
    predicate HoldsScope() {
      Submitting? || Live? || Stranded?
    }
  }

  datatype State = State(active: map<string, string>, tasks: map<string, Stage>)

  datatype Action =
    | Submit(taskId: string, scope: string)
    | SubmitFails(taskId: string)
    | SubmitWorks(taskId: string)
    | RunEnds(taskId: string, exit: Exit)
    | ForeignRelease(taskId: string, scope: string)

  predicate Enabled(s: State, a: Action) {
    match a
    case Submit(taskId, _) => taskId !in s.tasks
    case SubmitFails(taskId) => taskId in s.tasks && s.tasks[taskId].Submitting?
    case SubmitWorks(taskId) => taskId in s.tasks && s.tasks[taskId].Submitting?
    case RunEnds(taskId, exit) => taskId in s.tasks && s.tasks[taskId].Live? && exit != Exit.Running
    case ForeignRelease(taskId, scope) => !HoldsIn(s, taskId, scope)
  }

  function Do(s: State, a: Action): State
    requires Enabled(s, a)
  {
    match a
    case Submit(taskId, scope) =>
      var active := Acquired(s.active, scope, taskId);
      State(active, s.tasks[taskId := if Holds(active, scope, taskId) then Submitting(scope) else Rejected])
    case SubmitFails(taskId) => State(Released(s.active, s.tasks[taskId].scope, taskId), s.tasks[taskId := Over])
    case SubmitWorks(taskId) => s.(tasks := s.tasks[taskId := Live(s.tasks[taskId].scope)])
    case RunEnds(taskId, exit) =>
      var scope := s.tasks[taskId].scope;
      if Frees(exit) then State(Released(s.active, scope, taskId), s.tasks[taskId := Over])
      else s.(tasks := s.tasks[taskId := Stranded(scope)])
    case ForeignRelease(taskId, scope) => s.(active := Released(s.active, scope, taskId))
  }

  ghost predicate Legal(s: State, run: seq<Action>)
    decreases run
  {
    run == [] || (Enabled(s, run[0]) && Legal(Do(s, run[0]), run[1..]))
  }

  function Exec(s: State, run: seq<Action>): State
    requires Legal(s, run)
    decreases run
  {
    if run == [] then s else Exec(Do(s, run[0]), run[1..])
  }

  /** The lock table and the tasks agree: an entry is a task that holds the scope, and every such task has
      its entry. */
  ghost predicate Inv(s: State) {
    && (forall t :: t in s.tasks && s.tasks[t].HoldsScope() ==> Holds(s.active, s.tasks[t].scope, t))
    && (forall c :: c in s.active ==> s.active[c] in s.tasks && s.tasks[s.active[c]].HoldsScope() && s.tasks[s.active[c]].scope == c)
  }

  lemma InvKept(s: State, a: Action)
    requires Inv(s) && Enabled(s, a)
    ensures Inv(Do(s, a))
  {
  }

  lemma {:induction false} RunKeepsInv(s: State, run: seq<Action>)
    requires Inv(s) && Legal(s, run)
    ensures Inv(Exec(s, run))
    decreases run
  {
    hide Inv, Do, Enabled;
    if run != [] {
      InvKept(s, run[0]);
      RunKeepsInv(Do(s, run[0]), run[1..]);
    }
  }

  predicate HoldsIn(s: State, taskId: string, scope: string) {
    taskId in s.tasks && s.tasks[taskId].HoldsScope() && s.tasks[taskId].scope == scope
  }

  /** In every run no two tasks hold one scope, and a scope is taken exactly while some task submits to it,
      runs on it, or left it without releasing. */
  lemma OneTaskPerScope(run: seq<Action>)
    requires Legal(State(map[], map[]), run)
    ensures var s := Exec(State(map[], map[]), run);
            && (forall t, u, c :: HoldsIn(s, t, c) && HoldsIn(s, u, c) ==> t == u)
            && (forall c :: c in s.active <==> exists t :: HoldsIn(s, t, c))
  {
    RunKeepsInv(State(map[], map[]), run);
    var s := Exec(State(map[], map[]), run);
    assert forall t, c :: HoldsIn(s, t, c) ==> Holds(s.active, c, t);
    assert forall c :: c in s.active ==> HoldsIn(s, s.active[c], c);
  }

  /** A release by anyone but the holder changes nothing. */
  lemma ForeignReleaseIsIdle(s: State, taskId: string, scope: string)
    requires Inv(s) && Enabled(s, ForeignRelease(taskId, scope))
    ensures Do(s, ForeignRelease(taskId, scope)) == s
  {
  }

  /** A scope is left behind exactly by a run that goes in a way that does not release it. */
  lemma {:induction false} StrandedExactly(s: State, run: seq<Action>, taskId: string)
    requires Legal(s, run) && (taskId in s.tasks ==> !s.tasks[taskId].Stranded?)
    ensures (taskId in Exec(s, run).tasks && Exec(s, run).tasks[taskId].Stranded?)
       <==> exists i :: 0 <= i < |run| && run[i].RunEnds? && run[i].taskId == taskId && !Frees(run[i].exit)
    decreases run
  {
    if run != [] {
      var s1, rest := Do(s, run[0]), run[1..];
      if taskId in s1.tasks && s1.tasks[taskId].Stranded? {
        StrandedStays(s1, rest, taskId);
      } else {
        StrandedExactly(s1, rest, taskId);
        assert forall i :: 0 <= i < |rest| ==> rest[i] == run[i + 1];
        assert forall i :: 0 < i < |run| ==> run[i] == rest[i - 1];
      }
    }
  }

  lemma {:induction false} StrandedStays(s: State, run: seq<Action>, taskId: string)
    requires Legal(s, run) && taskId in s.tasks && s.tasks[taskId].Stranded?
    ensures taskId in Exec(s, run).tasks && Exec(s, run).tasks[taskId] == s.tasks[taskId]
    decreases run
  {
    if run != [] {
      StrandedStays(Do(s, run[0]), run[1..], taskId);
    }
  }

  /** While every run ends in a way that releases, a scope is taken exactly while a task submits to it or
      runs on it. */
  lemma NothingIsStranded(run: seq<Action>)
    requires Legal(State(map[], map[]), run) && forall a :: a in run && a.RunEnds? ==> Frees(a.exit)
    ensures var s := Exec(State(map[], map[]), run);
            forall c :: c in s.active <==>
              exists t :: t in s.tasks && (s.tasks[t] == Submitting(c) || s.tasks[t] == Live(c))
  {
    var s := Exec(State(map[], map[]), run);
    RunKeepsInv(State(map[], map[]), run);
    forall t | t in s.tasks ensures !s.tasks[t].Stranded? {
      StrandedExactly(State(map[], map[]), run, t);
    }
    forall c | c in s.active ensures exists t :: t in s.tasks && (s.tasks[t] == Submitting(c) || s.tasks[t] == Live(c)) {
      assert s.tasks[s.active[c]].HoldsScope();
    }
  }

  /** A stranded scope rejects every later submission. */
  lemma StrandedScopeStaysBusy(s: State, run: seq<Action>, taskId: string)
    requires Inv(s) && Legal(s, run) && taskId in s.tasks && s.tasks[taskId].Stranded?
    ensures var s', scope := Exec(s, run), s.tasks[taskId].scope;
            && taskId in s'.tasks && s'.tasks[taskId] == s.tasks[taskId] && Holds(s'.active, scope, taskId)
            && forall t :: t !in s'.tasks ==> Do(s', Submit(t, scope)).tasks[t] == Rejected
  {
    RunKeepsInv(s, run);
    StrandedStays(s, run, taskId);
  }
}
