/** The task and event tables, and the one transaction that changes both. */
module EventStore {
  import opened TaskTypes

  /** What an adapter knows about the execution of a task; "" stands for an unknown id. */
  datatype Handle = Handle(binding: string, executionId: string, sessionId: string)

  /** The columns of a task row that change after it is inserted. `None` is SQL NULL. */
  datatype TaskRow = TaskRow(
    status: TaskStatus,
    binding: Option<string>,
    executionId: Option<string>,
    sessionId: Option<string>,
    lastError: Option<TaskError>,
    resultArtifact: Option<string>)

  /** One call of the append transaction: the event and what it says about the task row. */
  datatype Mutation = Mutation(
    event: TaskEvent,
    remote: Option<Handle>,
    error: Option<TaskError>,
    resultArtifact: string)

  datatype Db = Db(events: seq<TaskEvent>, tasks: map<string, TaskRow>)

  /** Where a transaction can be made to fail from outside. */
  datatype TxFault = NoFault | BeginFails | InsertFails | UpdateFails | CommitFails

  function NullString(s: string): Option<string> {
    if s == "" then None else Some(s)
  }

  function Coalesce(new_: Option<string>, kept: Option<string>): Option<string> {
    if new_.Some? then new_ else kept
  }

  /** The UPDATE of the task row. The binding is not passed through NullString, the ids are. */
  function Updated(row: TaskRow, m: Mutation): TaskRow {
    TaskRow(
      m.event.state,
      Coalesce(if m.remote.Some? then Some(m.remote.value.binding) else None, row.binding),
      Coalesce(if m.remote.Some? then NullString(m.remote.value.executionId) else None, row.executionId),
      Coalesce(if m.remote.Some? then NullString(m.remote.value.sessionId) else None, row.sessionId),
      m.error,
      Coalesce(NullString(m.resultArtifact), row.resultArtifact))
  }

  /** UNIQUE(task_id, seq) already holds a row for this pair. */
  predicate Taken(events: seq<TaskEvent>, taskId: string, seqNo: int) {
    exists i :: 0 <= i < |events| && events[i].taskId == taskId && events[i].seqNo == seqNo
  }

  /** Both tables after the transaction commits. An UPDATE of a missing row changes nothing. */
  function Committed(db: Db, m: Mutation): Db {
    var id := m.event.taskId;
    Db(db.events + [m.event],
       if id in db.tasks then db.tasks[id := Updated(db.tasks[id], m)] else db.tasks)
  }

  /** SELECT COALESCE(MAX(seq), 0) over the rows of one task. */
  function MaxSeq(events: seq<TaskEvent>, taskId: string): (r: int)
    ensures forall i :: 0 <= i < |events| && events[i].taskId == taskId ==> events[i].seqNo <= r
    ensures Taken(events, taskId, r) || (r == 0 && forall e | e in events :: e.taskId != taskId)
  {
    if events == [] then 0
    else
      var last := events[|events| - 1];
      var rest := events[..|events| - 1];
      var r := MaxSeq(rest, taskId);
      if last.taskId != taskId then
        assert Taken(rest, taskId, r) ==> Taken(events, taskId, r);
        r
      else if forall e | e in rest :: e.taskId != taskId then
        assert events[|events| - 1] == last;
        last.seqNo
      else
        assert Taken(rest, taskId, r) ==> Taken(events, taskId, r);
        if r < last.seqNo then last.seqNo else r
  }

  /** The draft with the number that the log proposes for it. */
  function Numbered(db: Db, draft: Mutation): Mutation {
    draft.(event := draft.event.(seqNo := MaxSeq(db.events, draft.event.taskId) + 1))
  }

  /** The rows of one task in the order they were inserted. */
  function EventsOf(events: seq<TaskEvent>, taskId: string): seq<TaskEvent> {
    if events == [] then []
    else
      var rest := EventsOf(events[..|events| - 1], taskId);
      var last := events[|events| - 1];
      if last.taskId == taskId then rest + [last] else rest
  }

  lemma {:induction false} EventsOfMembers(events: seq<TaskEvent>, taskId: string)
    ensures forall e :: e in EventsOf(events, taskId) <==> e in events && e.taskId == taskId
  {
    if events != [] {
      EventsOfMembers(events[..|events| - 1], taskId);
      assert events == events[..|events| - 1] + [events[|events| - 1]];
    }
  }

  /** The log of every task carries the sequence numbers 1, 2, ... in insertion order. */
  ghost predicate Contiguous(events: seq<TaskEvent>) {
    forall taskId, i {:trigger EventsOf(events, taskId)[i]} ::
      0 <= i < |EventsOf(events, taskId)| ==> EventsOf(events, taskId)[i].seqNo == i + 1
  }

  /** A numbered log: the n-th event carries number n. */
  ghost predicate IsNumbered(log: seq<TaskEvent>) {
    forall i :: 0 <= i < |log| ==> log[i].seqNo == i + 1
  }

  lemma LogIsNumbered(events: seq<TaskEvent>, taskId: string)
    requires Contiguous(events)
    ensures IsNumbered(EventsOf(events, taskId))
  {
    forall i | 0 <= i < |EventsOf(events, taskId)| ensures EventsOf(events, taskId)[i].seqNo == i + 1 {
    }
  }

  /** `part` picks events of `log` in log order: each once, and the one its number points at. */
  ghost predicate Selection(log: seq<TaskEvent>, part: seq<TaskEvent>) {
    && StrictlyIncreasing(part)
    && forall i :: 0 <= i < |part| ==> 1 <= part[i].seqNo <= |log| && part[i] == log[part[i].seqNo - 1]
  }

  lemma MembersOfLog(log: seq<TaskEvent>, part: seq<TaskEvent>)
    requires IsNumbered(log) && StrictlyIncreasing(part) && forall e :: e in part ==> e in log
    ensures Selection(log, part)
  {
    forall i | 0 <= i < |part| ensures 1 <= part[i].seqNo <= |log| && part[i] == log[part[i].seqNo - 1] {
      assert part[i] in log;
      var j :| 0 <= j < |log| && log[j] == part[i];
    }
  }

  lemma EventsOfAppend(events: seq<TaskEvent>, e: TaskEvent, taskId: string)
    ensures EventsOf(events + [e], taskId)
         == if e.taskId == taskId then EventsOf(events, taskId) + [e] else EventsOf(events, taskId)
  {
    assert (events + [e])[..|events|] == events;
  }

  /** In a contiguous log the largest number is the number of rows, and a number is taken exactly
      when it lies in 1..n. */
  lemma ContiguousSeqs(events: seq<TaskEvent>, taskId: string)
    requires Contiguous(events)
    ensures MaxSeq(events, taskId) == |EventsOf(events, taskId)|
    ensures forall n :: Taken(events, taskId, n) <==> 1 <= n <= |EventsOf(events, taskId)|
  {
    var own := EventsOf(events, taskId);
    EventsOfMembers(events, taskId);
    forall n ensures Taken(events, taskId, n) <==> 1 <= n <= |own| {
      if 1 <= n <= |own| {
        assert own[n - 1] in events && own[n - 1].seqNo == n;
      }
      if Taken(events, taskId, n) {
        var i :| 0 <= i < |events| && events[i].taskId == taskId && events[i].seqNo == n;
        assert events[i] in own;
      }
    }
    if own != [] {
      assert own[|own| - 1] in events;
    } else {
      assert forall e | e in events :: e.taskId != taskId || e in own;
    }
  }

  /** Appending the next free number keeps every log contiguous. */
  lemma AppendKeepsContiguous(events: seq<TaskEvent>, e: TaskEvent)
    requires Contiguous(events) && e.seqNo == |EventsOf(events, e.taskId)| + 1
    ensures Contiguous(events + [e])
  {
    forall taskId, i | 0 <= i < |EventsOf(events + [e], taskId)|
      ensures EventsOf(events + [e], taskId)[i].seqNo == i + 1
    {
      EventsOfAppend(events, e, taskId);
    }
  }

  // ---- SELECT ... ORDER BY seq ----

  /** `r` lists the rows of one task by ascending sequence number. */
  ghost predicate ListedBySeq(events: seq<TaskEvent>, taskId: string, r: seq<TaskEvent>) {
    StrictlyIncreasing(r) && forall e :: e in r <==> e in events && e.taskId == taskId
  }

  lemma InitMembers(a: seq<TaskEvent>)
    requires StrictlyIncreasing(a) && a != []
    ensures StrictlyIncreasing(a[..|a| - 1])
    ensures forall e :: e in a[..|a| - 1] <==> e in a && e != a[|a| - 1]
  {
    var x := a[|a| - 1];
    assert a == a[..|a| - 1] + [x];
    assert forall i :: 0 <= i < |a| - 1 ==> a[i].seqNo < x.seqNo;
  }

  lemma SameLast(a: seq<TaskEvent>, b: seq<TaskEvent>)
    requires StrictlyIncreasing(a) && StrictlyIncreasing(b) && a != [] && b != []
    requires a[|a| - 1] in b && b[|b| - 1] in a
    ensures a[|a| - 1] == b[|b| - 1]
  {
    var i :| 0 <= i < |b| && b[i] == a[|a| - 1];
    var j :| 0 <= j < |a| && a[j] == b[|b| - 1];
  }

  lemma {:induction false} SameRowsSameList(a: seq<TaskEvent>, b: seq<TaskEvent>)
    requires StrictlyIncreasing(a) && StrictlyIncreasing(b)
    requires forall e :: e in a <==> e in b
    ensures a == b
    decreases |a|
  {
    assert a == [] || a[0] in a;
    assert b == [] || b[0] in b;
    if a != [] && b != [] {
      assert a[|a| - 1] in a && b[|b| - 1] in b;
      SameLast(a, b);
      InitMembers(a);
      InitMembers(b);
      var a', b' := a[..|a| - 1], b[..|b| - 1];
      forall e ensures e in a' <==> e in b' {
        assert e in a' <==> e in a && e != a[|a| - 1];
        assert e in b' <==> e in b && e != b[|b| - 1];
      }
      SameRowsSameList(a', b');
      assert a == a[..|a| - 1] + [a[|a| - 1]];
      assert b == b[..|b| - 1] + [b[|b| - 1]];
    }
  }

  /** A contiguous log has one listing: the order in which it was written. */
  lemma ListingIsLog(events: seq<TaskEvent>, taskId: string, r: seq<TaskEvent>)
    requires Contiguous(events)
    ensures ListedBySeq(events, taskId, r) <==> r == EventsOf(events, taskId)
  {
    var own := EventsOf(events, taskId);
    EventsOfMembers(events, taskId);
    if ListedBySeq(events, taskId, r) {
      SameRowsSameList(r, own);
    }
  }

  // ---- The row is the fold of its mutations ----

  /** The mutations of `ms` that commit, run in order; the others leave no trace. */
  function CommittedOnly(db: Db, ms: seq<Mutation>): seq<Mutation> {
    if ms == [] then []
    else
      var front := ms[..|ms| - 1];
      var m := ms[|ms| - 1];
      var done := CommittedOnly(db, front);
      if Taken(Attempted(db, front).events, m.event.taskId, m.event.seqNo) then done else done + [m]
  }

  /** The tables after every mutation of `ms` was tried in turn. */
  function Attempted(db: Db, ms: seq<Mutation>): Db {
    if ms == [] then db
    else
      var before := Attempted(db, ms[..|ms| - 1]);
      var m := ms[|ms| - 1];
      if Taken(before.events, m.event.taskId, m.event.seqNo) then before else Committed(before, m)
  }

  function OfTask(ms: seq<Mutation>, taskId: string): (r: seq<Mutation>)
    ensures forall m :: m in r ==> m in ms && m.event.taskId == taskId
  {
    if ms == [] then []
    else
      var rest := OfTask(ms[..|ms| - 1], taskId);
      if ms[|ms| - 1].event.taskId == taskId then rest + [ms[|ms| - 1]] else rest
  }

  /** The last of `values` that says something, or `start` when none does. */
  function LastSaid(start: Option<string>, values: seq<Option<string>>): Option<string> {
    if values == [] then start else Coalesce(values[|values| - 1], LastSaid(start, values[..|values| - 1]))
  }

  lemma {:induction false} LastSaidMeans(start: Option<string>, values: seq<Option<string>>)
    ensures (forall i :: 0 <= i < |values| ==> values[i] == None) ==> LastSaid(start, values) == start
    ensures forall i :: 0 <= i < |values| && values[i].Some? && (forall j :: i < j < |values| ==> values[j] == None)
              ==> LastSaid(start, values) == values[i]
  {
    if values != [] {
      var front := values[..|values| - 1];
      LastSaidMeans(start, front);
      assert forall i :: 0 <= i < |front| ==> front[i] == values[i];
      if values[|values| - 1] == None {
        forall i | 0 <= i < |values| && values[i].Some? && (forall j :: i < j < |values| ==> values[j] == None)
          ensures LastSaid(start, values) == values[i]
        {
          assert front[i] == values[i];
        }
      }
    }
  }

  function ExecutionIds(ms: seq<Mutation>): seq<Option<string>> {
    seq(|ms|, i requires 0 <= i < |ms| => if ms[i].remote.Some? then NullString(ms[i].remote.value.executionId) else None)
  }

  function SessionIds(ms: seq<Mutation>): seq<Option<string>> {
    seq(|ms|, i requires 0 <= i < |ms| => if ms[i].remote.Some? then NullString(ms[i].remote.value.sessionId) else None)
  }

  function Bindings(ms: seq<Mutation>): seq<Option<string>> {
    seq(|ms|, i requires 0 <= i < |ms| => if ms[i].remote.Some? then Some(ms[i].remote.value.binding) else None)
  }

  function Artifacts(ms: seq<Mutation>): seq<Option<string>> {
    seq(|ms|, i requires 0 <= i < |ms| => NullString(ms[i].resultArtifact))
  }

  /** What a task row says, in terms of the mutations committed to it since it read `start`. */
  predicate RowSays(start: TaskRow, ms: seq<Mutation>, row: TaskRow) {
    && row.status == (if ms == [] then start.status else ms[|ms| - 1].event.state)
    && row.lastError == (if ms == [] then start.lastError else ms[|ms| - 1].error)
    && row.executionId == LastSaid(start.executionId, ExecutionIds(ms))
    && row.sessionId == LastSaid(start.sessionId, SessionIds(ms))
    && row.binding == LastSaid(start.binding, Bindings(ms))
    && row.resultArtifact == LastSaid(start.resultArtifact, Artifacts(ms))
  }

  lemma LastSaidExtends(start: Option<string>, values: seq<Option<string>>, v: Option<string>)
    ensures LastSaid(start, values + [v]) == Coalesce(v, LastSaid(start, values))
  {
    assert (values + [v])[..|values|] == values;
  }

  lemma RowSaysExtends(start: TaskRow, ms: seq<Mutation>, row: TaskRow, m: Mutation)
    requires RowSays(start, ms, row)
    ensures RowSays(start, ms + [m], Updated(row, m))
  {
    var all := ms + [m];
    var e := if m.remote.Some? then NullString(m.remote.value.executionId) else None;
    var s := if m.remote.Some? then NullString(m.remote.value.sessionId) else None;
    var b := if m.remote.Some? then Some(m.remote.value.binding) else None;
    assert ExecutionIds(all) == ExecutionIds(ms) + [e];
    assert SessionIds(all) == SessionIds(ms) + [s];
    assert Bindings(all) == Bindings(ms) + [b];
    assert Artifacts(all) == Artifacts(ms) + [NullString(m.resultArtifact)];
    LastSaidExtends(start.executionId, ExecutionIds(ms), e);
    LastSaidExtends(start.sessionId, SessionIds(ms), s);
    LastSaidExtends(start.binding, Bindings(ms), b);
    LastSaidExtends(start.resultArtifact, Artifacts(ms), NullString(m.resultArtifact));
  }

  function EventsIn(ms: seq<Mutation>): seq<TaskEvent> {
    seq(|ms|, i requires 0 <= i < |ms| => ms[i].event)
  }

  /** The event table gains exactly the events of the mutations that committed. */
  lemma {:induction false} TableFollowsCommits(db: Db, ms: seq<Mutation>)
    ensures Attempted(db, ms).events == db.events + EventsIn(CommittedOnly(db, ms))
    ensures Attempted(db, ms).tasks.Keys == db.tasks.Keys
  {
    if ms == [] {
      assert db.events + [] == db.events;
    } else {
      TableFollowsCommits(db, ms[..|ms| - 1]);
      var done := CommittedOnly(db, ms[..|ms| - 1]);
      assert EventsIn(done + [ms[|ms| - 1]]) == EventsIn(done) + [ms[|ms| - 1].event];
    }
  }

  /** For every list of attempts, in which any may be rolled back, each task row reads as the last
      thing its committed mutations said. */
  lemma {:induction false} RowFollowsCommits(db: Db, ms: seq<Mutation>, taskId: string)
    requires taskId in db.tasks
    ensures taskId in Attempted(db, ms).tasks
    ensures RowSays(db.tasks[taskId], OfTask(CommittedOnly(db, ms), taskId), Attempted(db, ms).tasks[taskId])
  {
    TableFollowsCommits(db, ms);
    if ms != [] {
      var front, m := ms[..|ms| - 1], ms[|ms| - 1];
      TableFollowsCommits(db, front);
      RowFollowsCommits(db, front, taskId);
      var before, done := Attempted(db, front), CommittedOnly(db, front);
      OfTaskAppend(done, m, taskId);
      if m.event.taskId == taskId {
        RowSaysExtends(db.tasks[taskId], OfTask(done, taskId), before.tasks[taskId], m);
      }
    }
  }

  lemma OfTaskAppend(ms: seq<Mutation>, m: Mutation, taskId: string)
    ensures OfTask(ms + [m], taskId) == if m.event.taskId == taskId then OfTask(ms, taskId) + [m] else OfTask(ms, taskId)
  {
    assert (ms + [m])[..|ms|] == ms;
  }

  /** One committed mutation, column by column: status and error are the mutation's; a handle gives its binding,
      and its ids where they are not empty; an artifact id that is not empty is kept; the rest stays. */
  lemma UpdatedMeans(row: TaskRow, m: Mutation)
    ensures var r := Updated(row, m);
            && r.status == m.event.state && r.lastError == m.error
            && (m.remote == None ==> r.binding == row.binding && r.executionId == row.executionId && r.sessionId == row.sessionId)
            && (m.remote.Some? ==>
                  var h := m.remote.value;
                  && r.binding == Some(h.binding)
                  && r.executionId == (if h.executionId != "" then Some(h.executionId) else row.executionId)
                  && r.sessionId == (if h.sessionId != "" then Some(h.sessionId) else row.sessionId))
            && r.resultArtifact == (if m.resultArtifact != "" then Some(m.resultArtifact) else row.resultArtifact)
  {
  }

  /** What a committed mutation leaves: its event at the end of the table, its task's row as above, and every
      other row as it was. */
  lemma CommittedMeans(db: Db, m: Mutation)
    ensures var db', t := Committed(db, m), m.event.taskId;
            && db'.events == db.events + [m.event] && db'.tasks.Keys == db.tasks.Keys
            && (forall id :: id in db.tasks && id != t ==> db'.tasks[id] == db.tasks[id])
            && (t in db.tasks ==> db'.tasks[t].status == m.event.state && db'.tasks[t].lastError == m.error)
            && (t in db.tasks && m.remote.Some? ==>
                  && db'.tasks[t].binding == Some(m.remote.value.binding)
                  && (m.remote.value.executionId != "" ==> db'.tasks[t].executionId == Some(m.remote.value.executionId))
                  && (m.remote.value.sessionId != "" ==> db'.tasks[t].sessionId == Some(m.remote.value.sessionId)))
            && (t in db.tasks && m.resultArtifact != "" ==> db'.tasks[t].resultArtifact == Some(m.resultArtifact))
  {
    if m.event.taskId in db.tasks {
      UpdatedMeans(db.tasks[m.event.taskId], m);
    }
  }

  /** Ids and the result artifact never become empty again; the error is dropped by the next
      mutation without one. */
  lemma OnceSetStaysSet(row: TaskRow, m: Mutation)
    ensures row.executionId.Some? ==> Updated(row, m).executionId.Some?
    ensures row.sessionId.Some? ==> Updated(row, m).sessionId.Some?
    ensures row.resultArtifact.Some? ==> Updated(row, m).resultArtifact.Some?
    ensures m.error == None ==> Updated(row, m).lastError == None
  {
  }

  /** The binding can be wiped: it is overwritten with "" exactly by a handle that has none, such as
      the fallback handle used when a target no longer resolves. */
  lemma BindingWiped(row: TaskRow, m: Mutation)
    requires row.binding.Some? && row.binding.value != ""
    ensures Updated(row, m).binding.Some?
    ensures Updated(row, m).binding.value == "" <==> m.remote.Some? && m.remote.value.binding == ""
  {
  }

  // ---- The store ----

  class TaskStore {
    var events: seq<TaskEvent>
    var tasks: map<string, TaskRow>

    function Contents(): Db
      reads this
    {
      Db(events, tasks)
    }

    constructor ()
      ensures Contents() == Db([], map[])
    {
      events, tasks := [], map[];
    }

    method InsertTask(taskId: string, row: TaskRow) returns (ok: bool)
      modifies this
      ensures ok <==> taskId !in old(tasks)
      ensures events == old(events)
      ensures tasks == if ok then old(tasks)[taskId := row] else old(tasks)
    {
      if taskId in tasks { return false; }
      tasks := tasks[taskId := row];
      return true;
    }

    method NextSeq(taskId: string) returns (seqNo: int)
      ensures !Taken(events, taskId, seqNo)
      ensures seqNo == MaxSeq(events, taskId) + 1
    {
      seqNo := 0;
      var found := false;
      var i := 0;
      while i < |events|
        invariant 0 <= i <= |events|
        invariant seqNo == MaxSeq(events[..i], taskId)
        invariant !found <==> forall e | e in events[..i] :: e.taskId != taskId
      {
        assert events[..i + 1][..i] == events[..i];
        assert events[..i + 1] == events[..i] + [events[i]];
        if events[i].taskId == taskId {
          if !found || seqNo < events[i].seqNo {
            seqNo := events[i].seqNo;
          }
          found := true;
        }
        i := i + 1;
      }
      assert events[..i] == events;
      seqNo := seqNo + 1;
    }

    /** Inserts the event and updates the task row in one transaction; any failure on the way rolls
        both back. */
    method AppendEventAndUpdateTask(m: Mutation, fault: TxFault) returns (ok: bool)
      modifies this
      ensures ok <==> fault == NoFault && !Taken(old(events), m.event.taskId, m.event.seqNo)
      ensures Contents() == if ok then Committed(old(Contents()), m) else old(Contents())
    {
      if fault == BeginFails {
        return false;
      }
      var savedEvents, savedTasks := events, tasks;
      var committed := false;
      if fault != InsertFails && !Taken(events, m.event.taskId, m.event.seqNo) {
        events := events + [m.event];
        if fault != UpdateFails {
          if m.event.taskId in tasks {
            tasks := tasks[m.event.taskId := Updated(tasks[m.event.taskId], m)];
          }
          committed := fault != CommitFails;
        }
      }
      if !committed {
        events, tasks := savedEvents, savedTasks;
      }
      return committed;
    }
  }
}
