/** The origin node's mirror of a destination task: one goroutine that appends an event per frame,
    among the other appenders of the origin node. */
module Relay {
  import opened TaskTypes
  import opened EventStore
  import opened AppendProtocol
  import opened NodeProto
  import NodeStream
  import StreamSystem
  import Sse
  import Orchestrator

  /** What the relay was started with: its appender, the proxy task, the handle it passes on, and what
      the stream will deliver before it ends, with or without an error (`detail` is its text). */
  datatype Job = Job(
    w: nat,
    taskId: string,
    handle: Handle,
    peer: string,
    frames: seq<TaskEventFrame>,
    streamOk: bool,
    detail: string)

  datatype Stage = Mirroring | Closing | Stopped

  /** `binding` is the stored status. The errors of its writes are discarded: `oks` is history, one entry a
      mirrored frame, of whether the write for it succeeded, and so is `gaveUp`, for the write of the
      interrupted status. `mine` is history too: the events this relay has committed to the origin log. */
  datatype Origin = Origin(
    base: State,
    stage: Stage,
    next: nat,
    binding: RelayStatus,
    oks: seq<bool>,
    gaveUp: Option<bool>,
    mine: seq<TaskEvent>)

  /** `ok` says whether the write of the binding that a move makes, if it makes one, succeeds. */
  datatype Move = Background(a: Action) | Own(a: Action, ok: bool) | StreamEnds(ok: bool)

  function MirrorDraft(job: Job, f: TaskEventFrame): Mutation {
    Mutation(LocalEvent(f, 0).(taskId := job.taskId), Some(job.handle), None, "")
  }

  /** The one failure event a relay may append. */
  function FailureDraft(job: Job): Mutation {
    Mutation(TaskEvent(job.taskId, 0, TaskFailed, Failed, FromTransport, "remote event stream failed",
                       map["remote_peer_id" := JStr(job.peer), "detail" := JStr(job.detail)]),
             Some(job.handle), Some(TaskError("remote event stream failed", job.detail)), "")
  }

  ghost predicate CanMove(job: Job, o: Origin, m: Move) {
    match m
    case Background(a) => Enabled(o.base, a) && ActorOf(a) != job.w
    case Own(a, _) =>
      && Enabled(o.base, a) && ActorOf(a) == job.w && !o.stage.Stopped?
      && (a.ReadSeq? ==> if o.stage.Mirroring? then o.next < |job.frames| && a.draft == MirrorDraft(job, job.frames[o.next])
                         else a.draft == FailureDraft(job))
    case StreamEnds(_) => o.stage.Mirroring? && PhaseOf(o.base, job.w).Idle? && o.next == |job.frames|
  }

  /** The error path: the interrupted status is written, if that works, and one more append follows. */
  function GivesUp(o: Origin, written: bool): Origin {
    o.(stage := Closing, gaveUp := Some(written), binding := if written then Interrupted else o.binding)
  }

  /** What the callback and its caller do once an append has returned. */
  function Returned(job: Job, o: Origin, ok: bool, written: bool): Origin {
    if !o.stage.Mirroring? then o.(stage := Stopped)
    else if ok && o.next < |job.frames| then
      var state := job.frames[o.next].state;
      o.(next := o.next + 1, oks := o.oks + [written],
         binding := if state.IsTerminal() && written then Reached(state) else o.binding)
    else GivesUp(o, written)
  }

  ghost function After(job: Job, o: Origin, m: Move): Origin
    requires CanMove(job, o, m)
  {
    match m
    case Background(a) => o.(base := Do(o.base, a))
    case StreamEnds(written) => if job.streamOk then o.(stage := Stopped) else GivesUp(o, written)
    case Own(a, written) =>
      var o' := o.(base := Do(o.base, a));
      match a
      case StoreEvent(w, _) =>
        if PhaseOf(o'.base, w).Stored? then o'.(mine := o.mine + [PhaseOf(o'.base, w).e]) else Returned(job, o', false, written)
      case FailTurnUpdate(_) => Returned(job, o', false, written)
      case EndPublish(_) => Returned(job, o', true, written)
      case _ => o'
  }

  /** `e` is the origin's event for frame `f`, in the proxy task's log. */
  ghost predicate IsImage(job: Job, e: TaskEvent, f: TaskEventFrame) {
    e.taskId == job.taskId && Imported(e, f)
  }

  /** The first `j` events of `mine` are the images of the first `j` frames. */
  ghost predicate ImagesOf(job: Job, mine: seq<TaskEvent>, j: int) {
    0 <= j <= |mine| && j <= |job.frames| && forall i :: 0 <= i < j ==> IsImage(job, mine[i], job.frames[i])
  }

  /** The failure event, whatever its number: it fails the proxy task and carries the peer and the stream's
      error text. */
  predicate IsFailureEvent(job: Job, e: TaskEvent) {
    && e.taskId == job.taskId && e.kind == TaskFailed && e.state == Failed && e.source == FromTransport
    && e.message == "remote event stream failed"
    && e.data == map["remote_peer_id" := JStr(job.peer), "detail" := JStr(job.detail)]
  }

  /** What the relay passes on about the proxy task's row, beside the event. */
  predicate RelayMutation(job: Job, m: Mutation, failure: bool) {
    && m.remote == Some(job.handle) && m.resultArtifact == ""
    && m.error == if failure then Some(TaskError("remote event stream failed", job.detail)) else None
  }

  /** Images of frames, and at the end perhaps the failure event. */
  ghost predicate ImagesThenFailure(job: Job, mine: seq<TaskEvent>) {
    ImagesOf(job, mine, |mine|)
    || (mine != [] && ImagesOf(job, mine, |mine| - 1) && IsFailureEvent(job, mine[|mine| - 1]))
  }

  /** What the relay has in the log, and what it is about to add, stage by stage. */
  ghost predicate RelayInv(job: Job, o: Origin) {
    var phase := PhaseOf(o.base, job.w);
    var committing := phase.Stored? || phase.Publishing?;
    match o.stage
    case Mirroring =>
      && o.gaveUp == None
      && o.next <= |job.frames| && (!phase.Idle? ==> o.next < |job.frames|)
      && |o.mine| == o.next + (if committing then 1 else 0)
      && ImagesOf(job, o.mine, |o.mine|)
      && (phase.SeqRead? ==> IsImage(job, phase.m.event, job.frames[o.next]) && RelayMutation(job, phase.m, false))
    case Closing =>
      && o.gaveUp.Some?
      && (phase.SeqRead? ==> IsFailureEvent(job, phase.m.event) && RelayMutation(job, phase.m, true))
      && if committing then ImagesThenFailure(job, o.mine) else ImagesOf(job, o.mine, |o.mine|)
    case Stopped =>
      && phase.Idle? && ImagesThenFailure(job, o.mine)
      && (o.gaveUp == None ==> |o.mine| == |job.frames| && ImagesOf(job, o.mine, |o.mine|))
  }

  /** The relay's events lie in the task's log in the order in which it committed them. */
  ghost predicate MineInv(job: Job, o: Origin) {
    && StrictlyIncreasing(o.mine)
    && (forall e :: e in o.mine ==> e in EventsOf(o.base.db.events, job.taskId))
    && (forall e :: e in o.mine ==> e.seqNo <= |EventsOf(o.base.db.events, job.taskId)|)
    && (PhaseOf(o.base, job.w).SeqRead? ==> PhaseOf(o.base, job.w).m.event.taskId == job.taskId)
  }

  /** The binding is what the successful writes made of it. */
  ghost predicate BindingInv(job: Job, o: Origin) {
    && o.next <= |job.frames| && |o.oks| == o.next
    && o.binding == (if o.gaveUp == Some(true) then Interrupted else BindingAfter(job.frames[..o.next], o.oks))
    && (o.stage.Stopped? && o.gaveUp == None ==> job.streamOk && o.next == |job.frames|)
    && (o.stage.Mirroring? ==> o.gaveUp == None) && (o.stage.Closing? ==> o.gaveUp.Some?)
  }

  /** The binding after the frames were mirrored, one write for each terminal one, of which those marked in
      `oks` succeeded. */
  function BindingAfter(frames: seq<TaskEventFrame>, oks: seq<bool>): RelayStatus
    requires |frames| == |oks|
  {
    if frames == [] then Streaming
    else
      var f := frames[|frames| - 1];
      if f.state.IsTerminal() && oks[|frames| - 1] then Reached(f.state)
      else BindingAfter(frames[..|frames| - 1], oks[..|frames| - 1])
  }

  /** A step that leaves the relay in its append. */
  lemma StepKeepsRelayInv(job: Job, o: Origin, a: Action, ok: bool)
    requires RelayInv(job, o) && CanMove(job, o, Own(a, ok)) && (a.ReadSeq? || a.StartPublish? || a.SendTo?)
    ensures RelayInv(job, After(job, o, Own(a, ok)))
  {
    hide Imported;
    if a.ReadSeq? && o.stage.Mirroring? {
      OwnershipCannotBeSpoofed(job.frames[o.next], 0);
      SameImport(LocalEvent(job.frames[o.next], 0), PhaseOf(Do(o.base, a), job.w).m.event, job.frames[o.next]);
    }
  }

  /** Neither the number nor the task id is part of what is imported. */
  lemma SameImport(a: TaskEvent, b: TaskEvent, f: TaskEventFrame)
    requires Imported(a, f) && b == a.(seqNo := b.seqNo, taskId := b.taskId)
    ensures Imported(b, f)
  {
  }

  /** Where a transaction of the relay leaves its appender. */
  lemma StoredOrIdle(s: State, w: nat, fault: TxFault)
    requires PhaseOf(s, w).SeqRead?
    ensures var s' := Do(s, StoreEvent(w, fault));
            PhaseOf(s', w) == Stored(PhaseOf(s, w).m.event) || PhaseOf(s', w) == Idle
  {
  }

  lemma StoreKeepsRelayInv(job: Job, o: Origin, fault: TxFault, ok: bool)
    requires RelayInv(job, o) && CanMove(job, o, Own(StoreEvent(job.w, fault), ok))
    ensures RelayInv(job, After(job, o, Own(StoreEvent(job.w, fault), ok)))
  {
    StoredOrIdle(o.base, job.w, fault);
    hide Do, IsFailureEvent, IsImage;
    var o' := After(job, o, Own(StoreEvent(job.w, fault), ok));
    if PhaseOf(Do(o.base, StoreEvent(job.w, fault)), job.w).Stored? {
      assert o'.mine[..|o.mine|] == o.mine;
    }
  }

  /** A step that ends the relay's append. */
  lemma ReturnKeepsRelayInv(job: Job, o: Origin, a: Action, ok: bool)
    requires RelayInv(job, o) && CanMove(job, o, Own(a, ok)) && (a.FailTurnUpdate? || a.EndPublish?)
    ensures RelayInv(job, After(job, o, Own(a, ok)))
  {
  }

  lemma OwnMoveKeepsRelayInv(job: Job, o: Origin, a: Action, ok: bool)
    requires RelayInv(job, o) && CanMove(job, o, Own(a, ok))
    ensures RelayInv(job, After(job, o, Own(a, ok)))
  {
    match a
    case StoreEvent(_, fault) => StoreKeepsRelayInv(job, o, fault, ok);
    case FailTurnUpdate(_) => ReturnKeepsRelayInv(job, o, a, ok);
    case EndPublish(_) => ReturnKeepsRelayInv(job, o, a, ok);
    case _ => StepKeepsRelayInv(job, o, a, ok);
  }

  lemma BackgroundKeepsRelayInv(job: Job, o: Origin, a: Action)
    requires RelayInv(job, o) && CanMove(job, o, Background(a))
    ensures RelayInv(job, After(job, o, Background(a)))
  {
    OthersStay(o.base, a, job.w);
  }

  lemma StreamEndKeepsRelayInv(job: Job, o: Origin, ok: bool)
    requires RelayInv(job, o) && CanMove(job, o, StreamEnds(ok))
    ensures RelayInv(job, After(job, o, StreamEnds(ok)))
  {
  }

  lemma MoveKeepsRelayInv(job: Job, o: Origin, m: Move)
    requires RelayInv(job, o) && CanMove(job, o, m)
    ensures RelayInv(job, After(job, o, m))
  {
    match m
    case Background(a) => BackgroundKeepsRelayInv(job, o, a);
    case Own(a, ok) => OwnMoveKeepsRelayInv(job, o, a, ok);
    case StreamEnds(ok) => StreamEndKeepsRelayInv(job, o, ok);
  }

  lemma BindingAfterOneMore(frames: seq<TaskEventFrame>, n: nat, oks: seq<bool>, ok: bool)
    requires n < |frames| && |oks| == n
    ensures BindingAfter(frames[..n + 1], oks + [ok])
         == if frames[n].state.IsTerminal() && ok then Reached(frames[n].state) else BindingAfter(frames[..n], oks)
  {
    assert frames[..n + 1][..n] == frames[..n] && (oks + [ok])[..n] == oks;
  }

  lemma ReturnKeepsBindingInv(job: Job, o: Origin, ok: bool, written: bool)
    requires BindingInv(job, o) && !o.stage.Stopped?
    ensures BindingInv(job, Returned(job, o, ok, written))
  {
    if o.stage.Mirroring? && o.next < |job.frames| {
      BindingAfterOneMore(job.frames, o.next, o.oks, written);
    }
  }

  /** The log has no say in what the binding is. */
  lemma OtherLogSameBinding(job: Job, o: Origin, base: State, mine: seq<TaskEvent>)
    requires BindingInv(job, o)
    ensures BindingInv(job, o.(base := base)) && BindingInv(job, o.(base := base, mine := mine))
  {
  }

  lemma MoveKeepsBindingInv(job: Job, o: Origin, m: Move)
    requires RelayInv(job, o) && BindingInv(job, o) && CanMove(job, o, m)
    ensures BindingInv(job, After(job, o, m))
  {
    match m
    case StreamEnds(_) =>
    case Background(a) => OtherLogSameBinding(job, o, Do(o.base, a), o.mine);
    case Own(a, written) =>
      hide BindingInv, RelayInv, Do, Enabled, Returned;
      var o' := o.(base := Do(o.base, a));
      OtherLogSameBinding(job, o, o'.base, After(job, o, m).mine);
      ReturnKeepsBindingInv(job, o', false, written);
      ReturnKeepsBindingInv(job, o', true, written);
  }

  lemma BaseKept(job: Job, o: Origin, m: Move)
    requires Inv(o.base) && CanMove(job, o, m)
    ensures Inv(After(job, o, m).base)
  {
    match m
    case Background(a) => InvKept(o.base, a);
    case Own(a, _) => InvKept(o.base, a);
    case StreamEnds(_) =>
  }

  lemma LongerLogKeepsMine(mine: seq<TaskEvent>, log: seq<TaskEvent>, longer: seq<TaskEvent>)
    requires log <= longer && forall e :: e in mine ==> e in log
    ensures forall e :: e in mine ==> e in longer
  {
    assert forall e :: e in log ==> e in longer;
  }

  /** A commit of the relay goes to the end of the log. */
  lemma CommitKeepsMine(job: Job, o: Origin, a: Action, ok: bool)
    requires LogInv(o.base) && MineInv(job, o) && CanMove(job, o, Own(a, ok)) && a.StoreEvent?
    requires PhaseOf(Do(o.base, a), job.w).Stored?
    ensures MineInv(job, After(job, o, Own(a, ok)))
  {
    var m := PhaseOf(o.base, job.w).m;
    var log := EventsOf(o.base.db.events, job.taskId);
    assert a.fault == NoFault;
    StoreOutcome(o.base, job.w);
    var o' := After(job, o, Own(a, ok));
    assert EventsOf(o'.base.db.events, job.taskId) == log + [m.event];
    assert o'.mine == o.mine + [m.event];
    assert m.event in log + [m.event];
    LongerLogKeepsMine(o.mine, log, log + [m.event]);
    AppendIncreasing(o.mine, m.event, |log|);
  }

  lemma AppendIncreasing(mine: seq<TaskEvent>, e: TaskEvent, bound: int)
    requires StrictlyIncreasing(mine) && (forall x :: x in mine ==> x.seqNo <= bound) && bound < e.seqNo
    ensures StrictlyIncreasing(mine + [e])
  {
    forall i, j | 0 <= i < j < |mine + [e]| ensures (mine + [e])[i].seqNo < (mine + [e])[j].seqNo {
      assert mine[i] in mine;
    }
  }

  lemma MoveKeepsMine(job: Job, o: Origin, m: Move)
    requires LogInv(o.base) && MineInv(job, o) && CanMove(job, o, m)
    requires RelayInv(job, o)
    ensures MineInv(job, After(job, o, m))
  {
    if m.Own? && m.a.StoreEvent? && PhaseOf(Do(o.base, m.a), job.w).Stored? {
      CommitKeepsMine(job, o, m.a, m.ok);
    } else if !m.StreamEnds? {
      StreamSystem.LogGrows(o.base, m.a, job.taskId);
      LongerLogKeepsMine(o.mine, EventsOf(o.base.db.events, job.taskId), EventsOf(Do(o.base, m.a).db.events, job.taskId));
      if m.Background? {
        OthersStay(o.base, m.a, job.w);
      }
    }
  }

  // ---- Runs ----

  ghost predicate LegalMoves(job: Job, o: Origin, moves: seq<Move>)
    decreases moves
  {
    moves == [] || (CanMove(job, o, moves[0]) && LegalMoves(job, After(job, o, moves[0]), moves[1..]))
  }

  ghost function Run(job: Job, o: Origin, moves: seq<Move>): Origin
    requires LegalMoves(job, o, moves)
    decreases moves
  {
    if moves == [] then o else Run(job, After(job, o, moves[0]), moves[1..])
  }

  /** The relay at the moment the stream is opened. */
  ghost predicate JustStarted(job: Job, o: Origin) {
    && Inv(o.base) && PhaseOf(o.base, job.w).Idle?
    && o.stage == Mirroring && o.next == 0 && o.binding == Streaming && o.oks == [] && o.gaveUp == None && o.mine == []
  }

  lemma {:induction false} MovesKeepInv(job: Job, o: Origin, moves: seq<Move>)
    requires Inv(o.base) && RelayInv(job, o) && MineInv(job, o) && BindingInv(job, o) && LegalMoves(job, o, moves)
    ensures var o' := Run(job, o, moves);
            Inv(o'.base) && RelayInv(job, o') && MineInv(job, o') && BindingInv(job, o')
    decreases moves
  {
    if moves != [] {
      BaseKept(job, o, moves[0]);
      MoveKeepsRelayInv(job, o, moves[0]);
      MoveKeepsMine(job, o, moves[0]);
      MoveKeepsBindingInv(job, o, moves[0]);
      MovesKeepInv(job, After(job, o, moves[0]), moves[1..]);
    }
  }

  /** The binding holds the state of the last terminal frame whose write succeeded, and is still streaming
      when there is none. */
  lemma {:induction false} BindingAfterMeans(frames: seq<TaskEventFrame>, oks: seq<bool>)
    requires |frames| == |oks|
    ensures BindingAfter(frames, oks) != Interrupted
    ensures BindingAfter(frames, oks) == Streaming <==> forall i :: 0 <= i < |frames| ==> !(frames[i].state.IsTerminal() && oks[i])
    ensures forall i :: 0 <= i < |frames| && frames[i].state.IsTerminal() && oks[i]
                        && (forall j :: i < j < |frames| ==> !(frames[j].state.IsTerminal() && oks[j]))
              ==> BindingAfter(frames, oks) == Reached(frames[i].state)
  {
    if frames != [] {
      var front, frontOks := frames[..|frames| - 1], oks[..|frames| - 1];
      BindingAfterMeans(front, frontOks);
      assert forall i :: 0 <= i < |front| ==> front[i] == frames[i] && frontOks[i] == oks[i];
    }
  }

  /** The index of the last terminal frame. */
  function LastTerminal(frames: seq<TaskEventFrame>): (k: Option<nat>)
    ensures k.Some? ==> k.value < |frames| && frames[k.value].state.IsTerminal()
    ensures forall i :: 0 <= i < |frames| && frames[i].state.IsTerminal() ==> k.Some? && i <= k.value
  {
    if frames == [] then None
    else if frames[|frames| - 1].state.IsTerminal() then Some(|frames| - 1)
    else LastTerminal(frames[..|frames| - 1])
  }

  /** What the frames call for: the state of the last terminal one. */
  function WantedAfter(frames: seq<TaskEventFrame>): RelayStatus {
    var k := LastTerminal(frames);
    if k == None then Streaming else Reached(frames[k.value].state)
  }

  /** The binding says what the frames call for exactly when the last write that was attempted succeeded, or
      an earlier one had already written the same state. */
  lemma {:induction false} BindingRightExactly(frames: seq<TaskEventFrame>, oks: seq<bool>)
    requires |frames| == |oks|
    ensures var k := LastTerminal(frames);
            BindingAfter(frames, oks) == WantedAfter(frames)
            <==> k == None || oks[k.value] || BindingAfter(frames[..k.value], oks[..k.value]) == WantedAfter(frames)
  {
    if frames != [] && !frames[|frames| - 1].state.IsTerminal() {
      var n := |frames| - 1;
      BindingRightExactly(frames[..n], oks[..n]);
      var k := LastTerminal(frames);
      if k.Some? {
        assert frames[..n][..k.value] == frames[..k.value] && oks[..n][..k.value] == oks[..k.value];
      }
    }
  }

  /** What the relay leaves behind when it has stopped. If it did not give up it has mirrored every frame of
      a stream that ended cleanly. If it did, the binding is interrupted exactly when that write succeeded;
      otherwise it still says what the frames mirrored before had made of it. */
  ghost predicate StoppedRight(job: Job, o: Origin) {
    && |o.oks| == o.next <= |job.frames|
    && (o.binding == Interrupted <==> o.gaveUp == Some(true))
    && (o.gaveUp == None ==>
          job.streamOk && o.next == |job.frames| == |o.mine| && ImagesOf(job, o.mine, |o.mine|) && o.binding == BindingAfter(job.frames, o.oks))
    && (o.gaveUp == Some(false) ==> o.binding == BindingAfter(job.frames[..o.next], o.oks))
  }

  lemma RelayInvShape(job: Job, o: Origin)
    requires RelayInv(job, o) && BindingInv(job, o)
    ensures ImagesThenFailure(job, o.mine)
    ensures o.stage.Stopped? ==> StoppedRight(job, o)
  {
    BindingAfterMeans(job.frames[..o.next], o.oks);
    assert o.next == |job.frames| ==> job.frames[..o.next] == job.frames;
  }

  /** The mirror, for every interleaving with other appenders of the origin and every failure: the
      events the relay has in the origin log are the images of the first frames, in frame order,
      followed by at most the one failure event; they lie in the log in that order, under fresh
      numbers. Where a relay that has stopped left the binding, and when that hides missing frames, is said
      by StoppedRight. */
  lemma MirrorIsOrderedImage(job: Job, o: Origin, moves: seq<Move>)
    requires JustStarted(job, o) && LegalMoves(job, o, moves)
    ensures var o' := Run(job, o, moves);
            && ImagesThenFailure(job, o'.mine)
            && Selection(EventsOf(o'.base.db.events, job.taskId), o'.mine)
            && (o'.stage.Stopped? ==> StoppedRight(job, o'))
  {
    JustStartedInv(job, o);
    MovesKeepInv(job, o, moves);
    RelayInvShape(job, Run(job, o, moves));
    MineIsSelection(job, Run(job, o, moves));
  }

  /** The proxy task's row, whenever the relay commits, in every run: an image leaves the frame's state, no error
      and the destination's handle; the failure event leaves the task failed, with the reason and the stream's
      error text. */
  lemma RowAfterCommit(job: Job, o: Origin, moves: seq<Move>, fault: TxFault, ok: bool)
    requires JustStarted(job, o) && LegalMoves(job, o, moves)
    requires CanMove(job, Run(job, o, moves), Own(StoreEvent(job.w, fault), ok))
    requires job.taskId in Run(job, o, moves).base.db.tasks
    ensures var o1 := Run(job, o, moves);
            var o2 := After(job, o1, Own(StoreEvent(job.w, fault), ok));
            o2.mine != o1.mine ==>
              && job.taskId in o2.base.db.tasks && o2.mine != [] && o2.mine[..|o2.mine| - 1] == o1.mine
              && var row, e := o2.base.db.tasks[job.taskId], o2.mine[|o2.mine| - 1];
                 && row.binding == Some(job.handle.binding)
                 && (o1.stage == Mirroring ==>
                       && o1.next < |job.frames| && IsImage(job, e, job.frames[o1.next])
                       && row.status == job.frames[o1.next].state && row.lastError == None)
                 && (o1.stage == Closing ==>
                       && e.kind == TaskFailed && e.state == Failed && e.source == FromTransport
                       && "detail" in e.data && e.data["detail"] == JStr(job.detail)
                       && row.status == Failed
                       && row.lastError == Some(TaskError("remote event stream failed", job.detail)))
  {
    JustStartedInv(job, o);
    MovesKeepInv(job, o, moves);
    var o1 := Run(job, o, moves);
    hide MineInv, BindingInv, Inv, Imported, LegalMoves, Run, ImagesOf, ImagesThenFailure;
    CommittedMeans(o1.base.db, PhaseOf(o1.base, job.w).m);
    CommitOrRollback(o1.base, job.w, fault);
    hide Do, Committed;
    var o2 := After(job, o1, Own(StoreEvent(job.w, fault), ok));
    if o2.mine != o1.mine {
      assert o2.mine == o1.mine + [PhaseOf(o1.base, job.w).m.event];
    }
  }

  lemma CommitOrRollback(s: State, w: nat, fault: TxFault)
    requires PhaseOf(s, w).SeqRead?
    ensures var s' := Do(s, StoreEvent(w, fault));
            || (PhaseOf(s', w) == Stored(PhaseOf(s, w).m.event) && s'.db == Committed(s.db, PhaseOf(s, w).m))
            || PhaseOf(s', w) == Idle
  {
  }

  lemma JustStartedInv(job: Job, o: Origin)
    requires JustStarted(job, o)
    ensures RelayInv(job, o) && MineInv(job, o) && BindingInv(job, o)
  {
  }

  lemma MineIsSelection(job: Job, o: Origin)
    requires LogInv(o.base) && MineInv(job, o)
    ensures Selection(EventsOf(o.base.db.events, job.taskId), o.mine)
  {
    LogIsNumbered(o.base.db.events, job.taskId);
    MembersOfLog(EventsOf(o.base.db.events, job.taskId), o.mine);
  }

  /** A failed write hides the loss: for any relay with frames to mirror some run stops it with nothing in
      the log and the binding still streaming. */
  lemma FailedWriteHidesLoss(job: Job, o: Origin) returns (moves: seq<Move>)
    requires JustStarted(job, o) && job.frames != []
    ensures LegalMoves(job, o, moves)
    ensures var o' := Run(job, o, moves);
            o'.stage.Stopped? && o'.binding == Streaming && o'.mine == [] && o'.base.db == o.base.db
  {
    var a, b := ReadSeq(job.w, MirrorDraft(job, job.frames[0])), StoreEvent(job.w, BeginFails);
    var c := ReadSeq(job.w, FailureDraft(job));
    moves := [Own(a, false), Own(b, false), Own(c, false), Own(b, false)];
    assert moves[1..] == [Own(b, false), Own(c, false), Own(b, false)];
    assert moves[1..][1..] == [Own(c, false), Own(b, false)] && moves[1..][1..][1..] == [Own(b, false)];
    assert [Own(b, false)][1..] == [];
    var o1 := After(job, o, Own(a, false));
    var o2 := After(job, o1, Own(b, false));
    var o3 := After(job, o2, Own(c, false));
    Unfold(job, o3, [Own(b, false)]);
    Unfold(job, o2, [Own(c, false), Own(b, false)]);
    Unfold(job, o1, [Own(b, false), Own(c, false), Own(b, false)]);
    Unfold(job, o, moves);
  }

  /** Unfolds one move of a run. */
  lemma Unfold(job: Job, o: Origin, moves: seq<Move>)
    requires moves != [] && CanMove(job, o, moves[0]) && LegalMoves(job, After(job, o, moves[0]), moves[1..])
    ensures LegalMoves(job, o, moves) && Run(job, o, moves) == Run(job, After(job, o, moves[0]), moves[1..])
  {
  }

  // ---- From the destination log to the origin log ----

  function FramesFor(env: Envelope, events: seq<TaskEvent>): (r: seq<TaskEventFrame>)
    ensures |r| == |events| && forall i :: 0 <= i < |r| ==> r[i] == FrameOf(env, events[i])
  {
    seq(|events|, i requires 0 <= i < |events| => FrameOf(env, events[i]))
  }

  /** `e`, in the origin log, mirrors `d`, in the destination log. */
  ghost predicate Mirrors(job: Job, e: TaskEvent, d: TaskEvent) {
    && e.taskId == job.taskId && e.source == FromTransport
    && e.kind == d.kind && e.state == d.state && e.message == d.message
    && "remote_event_seq" in e.data && e.data["remote_event_seq"] == JNum(d.seqNo)
    && "destination_task_id" in e.data && e.data["destination_task_id"] == JStr(d.taskId)
    && (forall k :: k !in {"destination_node_id", "destination_task_id", "destination_thread_id",
                           "remote_execution_id", "remote_session_id", "remote_event_seq"}
          ==> (k in e.data <==> k in d.data) && (k in e.data ==> e.data[k] == d.data[k]))
  }

  /** How many events of `mine` are images of frames. */
  ghost function ImageCount(job: Job, mine: seq<TaskEvent>): (j: nat)
    requires ImagesThenFailure(job, mine)
    ensures j <= |mine| <= j + 1 && ImagesOf(job, mine, j)
    ensures j < |mine| ==> IsFailureEvent(job, mine[j])
  {
    if ImagesOf(job, mine, |mine|) then |mine| else |mine| - 1
  }

  lemma ImageMirrors(job: Job, env: Envelope, e: TaskEvent, d: TaskEvent)
    requires IsImage(job, e, FrameOf(env, d))
    ensures Mirrors(job, e, d)
  {
  }

  /** `mine` holds, in order, mirrors of the first events of `source`, then at most the failure event. */
  ghost predicate MirrorOf(job: Job, mine: seq<TaskEvent>, source: seq<TaskEvent>) {
    && ImagesThenFailure(job, mine)
    && ImageCount(job, mine) <= |source|
    && forall i :: 0 <= i < ImageCount(job, mine) ==> Mirrors(job, mine[i], source[i])
  }

  lemma FramesMirror(job: Job, env: Envelope, mine: seq<TaskEvent>, source: seq<TaskEvent>)
    requires ImagesThenFailure(job, mine) && job.frames <= FramesFor(env, source)
    ensures MirrorOf(job, mine, source)
  {
    forall i | 0 <= i < ImageCount(job, mine) ensures Mirrors(job, mine[i], source[i]) {
      assert job.frames[i] == FramesFor(env, source)[i];
      ImageMirrors(job, env, mine[i], source[i]);
    }
  }

  lemma MirrorOfLonger(job: Job, mine: seq<TaskEvent>, source: seq<TaskEvent>, longer: seq<TaskEvent>)
    requires MirrorOf(job, mine, source) && source <= longer
    ensures MirrorOf(job, mine, longer)
  {
  }

  /** The destination's stream, its text and the origin's view of it: `items` is what the handler
      wrote, with keep-alives in between, and the connection delivered the first `cut` characters. */
  ghost predicate Connected(codec: Sse.Codec, env: Envelope, written: seq<TaskEvent>, items: seq<Sse.Item>, cut: nat, job: Job) {
    && Sse.Lawful(codec)
    && Sse.FramesOf(items) == FramesFor(env, written)
    && cut <= |Sse.Print(codec, items)|
    && job.frames == Sse.Scan(codec, Sse.Print(codec, items)[..cut]).frames
  }

  lemma ConnectionMirrors(codec: Sse.Codec, env: Envelope, written: seq<TaskEvent>, items: seq<Sse.Item>, cut: nat,
                          job: Job, o: Origin, moves: seq<Move>)
    requires Connected(codec, env, written, items, cut, job)
    requires JustStarted(job, o) && LegalMoves(job, o, moves)
    ensures MirrorOf(job, Run(job, o, moves).mine, written)
  {
    Sse.BrokenStreamDeliversPrefix(codec, items, cut);
    MirrorIsOrderedImage(job, o, moves);
    FramesMirror(job, env, Run(job, o, moves).mine, written);
  }

  /** End to end. Any run of a destination stream; its text, cut off anywhere; any run of the origin's
      relay over what the scanner made of that text. The relay's events in the origin log are, in
      order, images of the first events that the stream wrote, then at most one failure event; and
      those are a selection from the destination log, in its order, each recorded with its number. */
  lemma EndToEnd(codec: Sse.Codec, env: Envelope, y: StreamSystem.System, streamMoves: seq<StreamSystem.Move>,
                 items: seq<Sse.Item>, cut: nat, job: Job, o: Origin, moves: seq<Move>)
    requires Inv(y.base) && y.handler.NotStarted? && StreamSystem.LegalMoves(y, streamMoves)
    requires Connected(codec, env, StreamSystem.Written(StreamSystem.Reached(y, streamMoves).handler), items, cut, job)
    requires JustStarted(job, o) && LegalMoves(job, o, moves)
    ensures var dest := StreamSystem.Reached(y, streamMoves);
            && MirrorOf(job, Run(job, o, moves).mine, StreamSystem.Written(dest.handler))
            && Selection(EventsOf(dest.base.db.events, dest.taskId), StreamSystem.Written(dest.handler))
  {
    StreamSystem.StreamIsSafe(y, streamMoves);
    ConnectionMirrors(codec, env, StreamSystem.Written(StreamSystem.Reached(y, streamMoves).handler), items, cut, job, o, moves);
  }

  /** End to end without loss: if the destination handler's offers stay in order and its queue has room,
      whatever overlaps and rolls back on the way, what is mirrored is the destination log itself from its
      first event on, without a gap. */
  lemma EndToEndLossless(codec: Sse.Codec, env: Envelope, y: StreamSystem.System, streamMoves: seq<StreamSystem.Move>,
                         items: seq<Sse.Item>, cut: nat, job: Job, o: Origin, moves: seq<Move>)
    requires Inv(y.base) && y.handler.NotStarted? && StreamSystem.LegalMoves(y, streamMoves)
    requires StreamSystem.InOrderMoves(y, streamMoves)
    requires Connected(codec, env, StreamSystem.Written(StreamSystem.Reached(y, streamMoves).handler), items, cut, job)
    requires JustStarted(job, o) && LegalMoves(job, o, moves)
    ensures var dest := StreamSystem.Reached(y, streamMoves);
            MirrorOf(job, Run(job, o, moves).mine, EventsOf(dest.base.db.events, dest.taskId))
  {
    hide Inv, JustStarted, Connected, MirrorOf;
    var dest := StreamSystem.Reached(y, streamMoves);
    var written := StreamSystem.Written(dest.handler);
    StreamSystem.StreamIsLossless(y, streamMoves);
    ConnectionMirrors(codec, env, written, items, cut, job, o, moves);
    MirrorOfLonger(job, Run(job, o, moves).mine, written, EventsOf(dest.base.db.events, dest.taskId));
  }

  // ---- The loop itself ----

  /** The index of the first append that returns an error. */
  function FirstError(outcomes: seq<Orchestrator.Outcome>): (k: nat)
    ensures k <= |outcomes| && (k < |outcomes| ==> !outcomes[k].Ok())
    ensures forall i :: 0 <= i < k ==> outcomes[i].Ok()
    decreases outcomes
  {
    if outcomes == [] || !outcomes[0].Ok() then 0 else 1 + FirstError(outcomes[1..])
  }

  /** How many images end up in the log: a failing turn update leaves its event there. */
  function Mirrored(outcomes: seq<Orchestrator.Outcome>): nat {
    var k := FirstError(outcomes);
    if k < |outcomes| && outcomes[k].fault == NoFault then k + 1 else k
  }

  /** What the mirror leaves behind: the images up to the first error, the failure event if there was
      an error and its own append succeeded, and the binding that the successful writes made. */
  ghost predicate MirrorOutcome(job: Job, outcomes: seq<Orchestrator.Outcome>, oks: seq<bool>, last: Orchestrator.Outcome, lastOk: bool,
                                added: seq<TaskEvent>, binding: RelayStatus)
    requires |outcomes| == |oks| == |job.frames|
  {
    var k := FirstError(outcomes);
    var clean := k == |job.frames| && job.streamOk;
    && binding == (if !clean && lastOk then Interrupted else BindingAfter(job.frames[..k], oks[..k]))
    && |added| == Mirrored(outcomes) + (if !clean && last.fault == NoFault then 1 else 0)
    && ImagesOf(job, added, Mirrored(outcomes))
    && (!clean && last.fault == NoFault ==> IsFailureEvent(job, added[|added| - 1]))
  }

  /** The callback loop: imports frame after frame until an append fails, and after a terminal one writes
      its state to the binding; `oks` says which of those writes succeed. */
  method MirrorFrames(core: Orchestrator.Orchestrator, job: Job, outcomes: seq<Orchestrator.Outcome>, oks: seq<bool>)
    returns (failed: bool, binding: RelayStatus, ghost added: seq<TaskEvent>)
    requires core.Valid() && Contiguous(core.store.events) && |outcomes| == |oks| == |job.frames|
    modifies core, core.store
    ensures core.Valid() && Contiguous(core.store.events)
    ensures core.store.events == old(core.store.events) + added
    ensures failed <==> FirstError(outcomes) < |outcomes|
    ensures |added| == Mirrored(outcomes) && ImagesOf(job, added, |added|)
    ensures binding == BindingAfter(job.frames[..FirstError(outcomes)], oks[..FirstError(outcomes)])
    ensures core.store.tasks.Keys == old(core.store.tasks.Keys)
    ensures added != [] && job.taskId in core.store.tasks ==>
              core.store.tasks[job.taskId].status == job.frames[|added| - 1].state && core.store.tasks[job.taskId].lastError == None
  {
    hide LocalData, Contiguous, BindingAfter, ImagesOf, Imported, Orchestrator.PublishedRight, Committed, MaxSeq;
    assert ImagesOf(job, [], 0) && BindingAfter(job.frames[..0], oks[..0]) == Streaming by { NothingMirrored(job, oks[..0]); }
    binding, failed, added := Streaming, false, [];
    var i := 0;
    while i < |job.frames|
      invariant 0 <= i <= |job.frames| && i <= FirstError(outcomes)
      invariant core.Valid() && Contiguous(core.store.events)
      invariant core.store.events == old(core.store.events) + added
      invariant |added| == i && ImagesOf(job, added, i)
      invariant binding == BindingAfter(job.frames[..i], oks[..i])
      invariant core.store.tasks.Keys == old(core.store.tasks.Keys)
      invariant i > 0 && job.taskId in core.store.tasks ==>
                  core.store.tasks[job.taskId].status == job.frames[i - 1].state && core.store.tasks[job.taskId].lastError == None
    {

      var event := ToLocalTaskEvent(job.frames[i], 0);
      ghost var gained;
      var ok;
      ok, gained := Orchestrator.AppendDraft(core, Mutation(event.(taskId := job.taskId), Some(job.handle), None, ""), outcomes[i]);
      SameImport(event, event.(taskId := job.taskId), job.frames[i]);
      ImagesExtend(job, added, gained, event.(taskId := job.taskId));
      added := added + gained;
      FirstErrorIs(outcomes, i);
      if !ok {
        failed := true;
        return;
      }
      if event.state.IsTerminal() && oks[i] {
        binding := Reached(event.state);
      }
      BindingAfterOneMore(job.frames, i, oks[..i], oks[i]);
      assert oks[..i] + [oks[i]] == oks[..i + 1];
      i := i + 1;
    }
  }

  lemma NothingMirrored(job: Job, oks: seq<bool>)
    requires |oks| == 0
    ensures ImagesOf(job, [], 0) && BindingAfter(job.frames[..0], oks) == Streaming
  {
  }

  lemma ImagesExtend(job: Job, mine: seq<TaskEvent>, gained: seq<TaskEvent>, draft: TaskEvent)
    requires ImagesOf(job, mine, |mine|) && |gained| <= 1 && |mine| < |job.frames|
    requires forall e :: e in gained ==> e == draft.(seqNo := e.seqNo)
    requires draft.taskId == job.taskId && Imported(draft, job.frames[|mine|])
    ensures ImagesOf(job, mine + gained, |mine + gained|)
  {
    if gained != [] {
      assert gained[0] in gained;
      SameImport(draft, gained[0], job.frames[|mine|]);
    }
  }

  lemma FirstErrorIs(outcomes: seq<Orchestrator.Outcome>, i: nat)
    requires i <= FirstError(outcomes) && i < |outcomes|
    ensures outcomes[i].Ok() <==> i < FirstError(outcomes)
  {
  }

  /** The append of the error path, whose own error is ignored. */
  method RecordFailure(core: Orchestrator.Orchestrator, job: Job, last: Orchestrator.Outcome) returns (ghost gained: seq<TaskEvent>)
    requires core.Valid() && Contiguous(core.store.events)
    modifies core, core.store
    ensures core.Valid() && Contiguous(core.store.events)
    ensures core.store.events == old(core.store.events) + gained && |gained| == if last.fault == NoFault then 1 else 0
    ensures gained != [] ==> IsFailureEvent(job, gained[0])
    ensures core.store.tasks.Keys == old(core.store.tasks.Keys) && (gained == [] ==> core.store.tasks == old(core.store.tasks))
    ensures gained != [] && job.taskId in core.store.tasks ==>
              && core.store.tasks[job.taskId].status == Failed
              && core.store.tasks[job.taskId].lastError == Some(TaskError("remote event stream failed", job.detail))
  {
    hide Orchestrator.PublishedRight, Contiguous, Committed, Updated, MaxSeq;
    var ok;
    ok, gained := Orchestrator.AppendDraft(core, FailureDraft(job), last);
    FailureGained(job, [], gained);
  }

  /** The whole mirror, without interference: the frames, then, after an error of an append or of the
      stream, the interrupted status, if its write succeeds, and the one failure event. */
  method MirrorRemoteEvents(core: Orchestrator.Orchestrator, job: Job, outcomes: seq<Orchestrator.Outcome>, oks: seq<bool>,
                            last: Orchestrator.Outcome, lastOk: bool)
    returns (binding: RelayStatus)
    requires core.Valid() && Contiguous(core.store.events) && |outcomes| == |oks| == |job.frames|
    modifies core, core.store
    ensures core.Valid() && Contiguous(core.store.events)
    ensures old(core.store.events) <= core.store.events
    ensures MirrorOutcome(job, outcomes, oks, last, lastOk, core.store.events[|old(core.store.events)|..], binding)
    ensures job.taskId in old(core.store.tasks) && |core.store.events| > |old(core.store.events)| ==>
              && job.taskId in core.store.tasks
              && var row, e := core.store.tasks[job.taskId], core.store.events[|core.store.events| - 1];
                 && row.status == e.state
                 && row.lastError == if !(FirstError(outcomes) == |job.frames| && job.streamOk) && last.fault == NoFault
                                     then Some(TaskError("remote event stream failed", job.detail)) else None
  {
    hide Imported, Orchestrator.PublishedRight, MirrorOutcome, Contiguous, Committed, Updated, MaxSeq;
    var failed;
    ghost var added;
    failed, binding, added := MirrorFrames(core, job, outcomes, oks);
    LastImage(job, added);
    ghost var images := added;
    if failed || !job.streamOk {
      if lastOk {
        binding := Interrupted;
      }
      ghost var gained := RecordFailure(core, job, last);
      assert core.store.events == old(core.store.events) + (added + gained);
      added := added + gained;
    }
    assert core.store.events[|old(core.store.events)|..] == added;
    OutcomeIs(job, outcomes, oks, last, lastOk, images, added, binding);
  }

  lemma LastImage(job: Job, images: seq<TaskEvent>)
    requires ImagesOf(job, images, |images|)
    ensures images != [] ==> images[|images| - 1].state == job.frames[|images| - 1].state
  {
    if images != [] {
      assert IsImage(job, images[|images| - 1], job.frames[|images| - 1]);
    }
  }

  lemma FailureGained(job: Job, images: seq<TaskEvent>, gained: seq<TaskEvent>)
    requires |gained| <= 1 && forall e :: e in gained ==> e == FailureDraft(job).event.(seqNo := e.seqNo)
    ensures gained != [] ==> IsFailureEvent(job, gained[0]) && (images + gained)[|images + gained| - 1] == gained[0]
  {
    if gained != [] {
      assert gained[0] in gained;
    }
  }

  lemma OutcomeIs(job: Job, outcomes: seq<Orchestrator.Outcome>, oks: seq<bool>, last: Orchestrator.Outcome, lastOk: bool,
                  images: seq<TaskEvent>, added: seq<TaskEvent>, binding: RelayStatus)
    requires |outcomes| == |oks| == |job.frames| && images <= added
    requires |images| == Mirrored(outcomes) && ImagesOf(job, images, |images|)
    requires var k := FirstError(outcomes);
             var clean := k == |job.frames| && job.streamOk;
             && binding == (if !clean && lastOk then Interrupted else BindingAfter(job.frames[..k], oks[..k]))
             && |added| == |images| + (if !clean && last.fault == NoFault then 1 else 0)
             && (!clean && last.fault == NoFault ==> IsFailureEvent(job, added[|added| - 1]))
    ensures MirrorOutcome(job, outcomes, oks, last, lastOk, added, binding)
  {
    hide Imported, IsFailureEvent;
    assert forall i :: 0 <= i < |images| ==> added[i] == images[i];
  }

  // ---- The undisturbed mirror is one of the runs above ----

  lemma {:induction false} MovesConcat(job: Job, o: Origin, first: seq<Move>, second: seq<Move>)
    requires LegalMoves(job, o, first) && LegalMoves(job, Run(job, o, first), second)
    ensures LegalMoves(job, o, first + second) && Run(job, o, first + second) == Run(job, Run(job, o, first), second)
    decreases first
  {
    hide CanMove, After;
    if first == [] {
      assert first + second == second;
    } else {
      MovesConcat(job, After(job, o, first[0]), first[1..], second);
      assert (first + second)[1..] == first[1..] + second;
    }
  }

  lemma ThenMove(job: Job, o: Origin, moves: seq<Move>, m: Move)
    requires LegalMoves(job, o, moves) && CanMove(job, Run(job, o, moves), m)
    ensures LegalMoves(job, o, moves + [m]) && Run(job, o, moves + [m]) == After(job, Run(job, o, moves), m)
  {
    hide CanMove, After;
    var next := After(job, Run(job, o, moves), m);
    assert [m][1..] == [] && LegalMoves(job, next, []);
    MovesConcat(job, o, moves, [m]);
  }

  function Owns(run: seq<Action>): seq<Move> {
    seq(|run|, i requires 0 <= i < |run| => Own(run[i], false))
  }

  /** Sends to subscribers change nothing but channels. */
  lemma {:induction false} LiftSends(job: Job, o: Origin, run: seq<Action>)
    requires Legal(o.base, run) && !o.stage.Stopped? && forall a :: a in run ==> a.SendTo? && a.w == job.w
    ensures LegalMoves(job, o, Owns(run)) && Run(job, o, Owns(run)) == o.(base := Exec(o.base, run))
    decreases run
  {
    hide Do, Enabled;
    if run != [] {
      assert run[0] in run && Owns(run)[1..] == Owns(run[1..]) && Owns(run)[0] == Own(run[0], false);
      LiftSends(job, o.(base := Do(o.base, run[0])), run[1..]);
      Unfold(job, o, Owns(run));
    }
  }

  /** The append that comes next at this stage. */
  predicate IsNext(job: Job, o: Origin, draft: Mutation) {
    (o.stage.Mirroring? && o.next < |job.frames| && draft == MirrorDraft(job, job.frames[o.next]))
    || (o.stage.Closing? && draft == FailureDraft(job))
  }

  /** The origin with the append's effect on the node, before its caller goes on. */
  function Appended(o: Origin, w: nat, draft: Mutation, outcome: Orchestrator.Outcome): Origin {
    o.(base := Orchestrator.AppendedAlone(o.base, draft, outcome.fault, outcome.turnOk).(phases := o.base.phases[w := Idle]),
       mine := if outcome.fault == NoFault then o.mine + [Numbered(o.base.db, draft).event] else o.mine)
  }

  lemma OwnNumber(job: Job, o: Origin, draft: Mutation, ok: bool)
    requires PhaseOf(o.base, job.w).Idle? && IsNext(job, o, draft)
    ensures CanMove(job, o, Own(ReadSeq(job.w, draft), ok))
    ensures After(job, o, Own(ReadSeq(job.w, draft), ok))
         == o.(base := o.base.(phases := o.base.phases[job.w := SeqRead(Numbered(o.base.db, draft))]))
  {
    hide MaxSeq, Returned, MirrorDraft, FailureDraft;
  }

  /** The transaction of the relay's next append. */
  lemma OwnStore(job: Job, o: Origin, m: Mutation, fault: TxFault, ok: bool)
    requires PhaseOf(o.base, job.w) == SeqRead(m) && !o.stage.Stopped?
    requires !Taken(o.base.db.events, m.event.taskId, m.event.seqNo)
    ensures CanMove(job, o, Own(StoreEvent(job.w, fault), ok))
    ensures var o2 := After(job, o, Own(StoreEvent(job.w, fault), ok));
            if fault == NoFault
            then o2 == o.(base := o.base.(db := Committed(o.base.db, m), phases := o.base.phases[job.w := Stored(m.event)]),
                          mine := o.mine + [m.event])
            else o2 == Returned(job, o.(base := o.base.(phases := o.base.phases[job.w := Idle])), false, ok)
  {
    hide Returned, Taken, Committed;
  }

  /** From its transaction on: the publication, or the failed turn update. */
  lemma OwnPublish(job: Job, o: Origin, turnOk: bool, ok: bool) returns (moves: seq<Move>)
    requires PhaseOf(o.base, job.w).Stored? && !o.stage.Stopped?
    requires forall id :: id in o.base.subscribers ==> id in o.base.channels && o.base.channels[id].open
    ensures LegalMoves(job, o, moves)
    ensures Run(job, o, moves)
         == Returned(job, o.(base := o.base.(phases := o.base.phases[job.w := Idle],
                                             channels := if turnOk then Orchestrator.PublishedTo(o.base.channels, o.base.subscribers, PhaseOf(o.base, job.w).e, o.base.subscribers.Keys)
                                                         else o.base.channels)), turnOk, ok)
  {
    moves := [];
    if turnOk {
      ThenMove(job, o, moves, Own(StartPublish(job.w), false));
      moves := moves + [Own(StartPublish(job.w), false)];
      var o1 := Run(job, o, moves);
      var sends := Orchestrator.SendAll(o1.base, job.w);
      LiftSends(job, o1, sends);
      MovesConcat(job, o, moves, Owns(sends));
      moves := moves + Owns(sends);
      hide Returned;
      ThenMove(job, o, moves, Own(EndPublish(job.w), ok));
      moves := moves + [Own(EndPublish(job.w), ok)];
      assert Exec(o1.base, sends).phases[job.w := Idle] == o.base.phases[job.w := Idle];
    } else {
      ThenMove(job, o, moves, Own(FailTurnUpdate(job.w), ok));
      moves := moves + [Own(FailTurnUpdate(job.w), ok)];
    }
  }

  /** A whole append of the relay, and what its caller does next. */
  lemma OwnAppend(job: Job, o: Origin, draft: Mutation, outcome: Orchestrator.Outcome, ok: bool) returns (moves: seq<Move>)
    requires Contiguous(o.base.db.events) && PhaseOf(o.base, job.w).Idle? && IsNext(job, o, draft)
    requires forall id :: id in o.base.subscribers ==> id in o.base.channels && o.base.channels[id].open
    ensures LegalMoves(job, o, moves)
    ensures Run(job, o, moves) == Returned(job, Appended(o, job.w, draft, outcome), outcome.Ok(), ok)
  {
    hide CanMove, After, Returned, Orchestrator.PublishedTo, MaxSeq, Committed, MirrorDraft, FailureDraft, EventsOf, Taken;
    ContiguousSeqs(o.base.db.events, draft.event.taskId);
    OwnNumber(job, o, draft, ok);
    moves := [];
    ThenMove(job, o, moves, Own(ReadSeq(job.w, draft), ok));
    moves := moves + [Own(ReadSeq(job.w, draft), ok)];
    var o1 := Run(job, o, moves);
    OwnStore(job, o1, Numbered(o.base.db, draft), outcome.fault, ok);
    assert o1.base.phases[job.w := Idle] == o.base.phases[job.w := Idle];
    ThenMove(job, o, moves, Own(StoreEvent(job.w, outcome.fault), ok));
    moves := moves + [Own(StoreEvent(job.w, outcome.fault), ok)];
    if outcome.fault == NoFault {
      var o2 := Run(job, o, moves);
      var tail := OwnPublish(job, o2, outcome.turnOk, ok);
      MovesConcat(job, o, moves, tail);
      moves := moves + tail;
      assert o2.base.phases[job.w := Idle] == o.base.phases[job.w := Idle];
    }
  }

  lemma {:induction false} MovesKeepBase(job: Job, o: Origin, moves: seq<Move>)
    requires Inv(o.base) && LegalMoves(job, o, moves)
    ensures Inv(Run(job, o, moves).base)
    decreases moves
  {
    hide Inv, CanMove, After;
    if moves != [] {
      BaseKept(job, o, moves[0]);
      MovesKeepBase(job, After(job, o, moves[0]), moves[1..]);
    }
  }

  /** The mirror after `i` frames went well. */
  ghost predicate Midway(job: Job, o: Origin, outcomes: seq<Orchestrator.Outcome>, oks: seq<bool>, i: nat) {
    && |outcomes| == |oks| == |job.frames| && i <= |job.frames|
    && o.stage == Mirroring && o.next == i && o.gaveUp == None && PhaseOf(o.base, job.w).Idle?
    && |o.mine| == i && ImagesOf(job, o.mine, i)
    && o.binding == BindingAfter(job.frames[..i], oks[..i])
    && forall j :: 0 <= j < i ==> outcomes[j].Ok()
  }

  /** The error path from a state that has given up: the one failure append, and the end. */
  lemma SoloFailure(job: Job, o: Origin, last: Orchestrator.Outcome) returns (moves: seq<Move>)
    requires Inv(o.base) && o.stage == Closing && PhaseOf(o.base, job.w).Idle?
    ensures LegalMoves(job, o, moves)
    ensures var o' := Run(job, o, moves);
            && o'.stage == Stopped && o'.binding == o.binding && |o'.mine| == |o.mine| + (if last.fault == NoFault then 1 else 0)
            && o.mine <= o'.mine && (last.fault == NoFault ==> IsFailureEvent(job, o'.mine[|o.mine|]))
  {
    moves := OwnAppend(job, o, FailureDraft(job), last, false);
  }

  /** One frame: imported and reported, or the mirror gives up. */
  lemma SoloFrame(job: Job, o: Origin, outcomes: seq<Orchestrator.Outcome>, oks: seq<bool>, i: nat, lastOk: bool) returns (moves: seq<Move>)
    requires Inv(o.base) && Midway(job, o, outcomes, oks, i) && i < |job.frames|
    ensures LegalMoves(job, o, moves)
    ensures var o' := Run(job, o, moves);
            if outcomes[i].Ok() then Midway(job, o', outcomes, oks, i + 1)
            else && o'.stage == Closing && PhaseOf(o'.base, job.w).Idle?
                 && o'.binding == (if lastOk then Interrupted else o.binding)
                 && |o'.mine| == (if outcomes[i].fault == NoFault then i + 1 else i) && ImagesOf(job, o'.mine, |o'.mine|)
  {
    hide Imported, Inv, BindingAfter, Orchestrator.PublishedTo, MaxSeq, Committed, ImagesOf, LegalMoves, Run, MirrorDraft;
    var draft, outcome := MirrorDraft(job, job.frames[i]), outcomes[i];
    BaseIsReady(o.base);
    moves := OwnAppend(job, o, draft, outcome, if outcome.Ok() then oks[i] else lastOk);
    NextImage(job, o, i, outcome);
    BindingAfterOneMore(job.frames, i, oks[..i], oks[i]);
    assert oks[..i] + [oks[i]] == oks[..i + 1];
  }

  lemma NextImage(job: Job, o: Origin, i: nat, outcome: Orchestrator.Outcome)
    requires |o.mine| == i < |job.frames| && ImagesOf(job, o.mine, i)
    ensures var mine := Appended(o, job.w, MirrorDraft(job, job.frames[i]), outcome).mine;
            |mine| == (if outcome.fault == NoFault then i + 1 else i) && ImagesOf(job, mine, |mine|)
  {
    hide Imported, Orchestrator.PublishedTo, MaxSeq, Committed, ImagesOf;
    var draft := MirrorDraft(job, job.frames[i]);
    OwnershipCannotBeSpoofed(job.frames[i], 0);
    SameImport(LocalEvent(job.frames[i], 0), draft.event, job.frames[i]);
    var gained := if outcome.fault == NoFault then [Numbered(o.base.db, draft).event] else [];
    ImagesExtend(job, o.mine, gained, draft.event);
    assert o.mine + [] == o.mine;
  }

  lemma BaseIsReady(s: State)
    requires Inv(s)
    ensures Contiguous(s.db.events) && forall id :: id in s.subscribers ==> id in s.channels && s.channels[id].open
  {
  }

  lemma {:induction false} SoloFrom(job: Job, o: Origin, outcomes: seq<Orchestrator.Outcome>, oks: seq<bool>,
                                    last: Orchestrator.Outcome, lastOk: bool, i: nat) returns (moves: seq<Move>)
    requires Inv(o.base) && Midway(job, o, outcomes, oks, i)
    ensures LegalMoves(job, o, moves) && Run(job, o, moves).stage == Stopped
    ensures MirrorOutcome(job, outcomes, oks, last, lastOk, Run(job, o, moves).mine, Run(job, o, moves).binding)
    decreases |job.frames| - i
  {
    hide Inv, CanMove, After, MirrorOutcome, Imported, IsFailureEvent, BindingAfter;
    if i < |job.frames| {
      moves := SoloFrame(job, o, outcomes, oks, i, lastOk);
      MovesKeepBase(job, o, moves);
      var o1 := Run(job, o, moves);
      var rest;
      if outcomes[i].Ok() {
        rest := SoloFrom(job, o1, outcomes, oks, last, lastOk, i + 1);
      } else {
        rest := SoloFailure(job, o1, last);
        assert FirstError(outcomes) == i;
        OutcomeIs(job, outcomes, oks, last, lastOk, o1.mine, Run(job, o1, rest).mine, Run(job, o1, rest).binding);
      }
      MovesConcat(job, o, moves, rest);
      moves := moves + rest;
    } else {
      moves := SoloEnd(job, o, outcomes, oks, last, lastOk);
    }
  }

  /** The stream ends after the last frame. */
  lemma SoloEnd(job: Job, o: Origin, outcomes: seq<Orchestrator.Outcome>, oks: seq<bool>, last: Orchestrator.Outcome, lastOk: bool)
    returns (moves: seq<Move>)
    requires Inv(o.base) && Midway(job, o, outcomes, oks, |job.frames|)
    ensures LegalMoves(job, o, moves) && Run(job, o, moves).stage == Stopped
    ensures MirrorOutcome(job, outcomes, oks, last, lastOk, Run(job, o, moves).mine, Run(job, o, moves).binding)
  {
    hide Inv, MirrorOutcome, Imported, IsFailureEvent, BindingAfter;
    ThenMove(job, o, [], StreamEnds(lastOk));
    moves := [] + [StreamEnds(lastOk)];
    var o1 := Run(job, o, moves);
    assert FirstError(outcomes) == |job.frames|;
    var final := o1;
    if !job.streamOk {
      var rest := SoloFailure(job, o1, last);
      MovesConcat(job, o, moves, rest);
      moves := moves + rest;
      final := Run(job, o1, rest);
    }
    OutcomeIs(job, outcomes, oks, last, lastOk, o.mine, final.mine, final.binding);
  }

  /** The mirror that nobody disturbs is one of the machine's runs, whatever fails on the way: it ends with the
      events and the binding that the method leaves. */
  lemma SoloMirrorIsARun(job: Job, o: Origin, outcomes: seq<Orchestrator.Outcome>, oks: seq<bool>,
                         last: Orchestrator.Outcome, lastOk: bool) returns (moves: seq<Move>)
    requires JustStarted(job, o) && |outcomes| == |oks| == |job.frames|
    ensures LegalMoves(job, o, moves) && Run(job, o, moves).stage == Stopped
    ensures MirrorOutcome(job, outcomes, oks, last, lastOk, Run(job, o, moves).mine, Run(job, o, moves).binding)
  {
    NothingMirrored(job, oks[..0]);
    moves := SoloFrom(job, o, outcomes, oks, last, lastOk, 0);
  }
}
