/** Any number of goroutines append events at once. Each append is a read of the next number, a
    transaction, a turn update and a publication under the read lock; subscribers come and go under
    the write lock. The steps of all of them interleave freely. */
module AppendProtocol {
  import opened TaskTypes
  import opened EventStore

  const QueueCapacity := 32

  /** A subscriber's channel. `offered` and `accepted` are history: every event a publisher tried to
      send here, and those that found room. */
  datatype Channel = Channel(
    open: bool,
    queue: seq<TaskEvent>,
    offered: seq<TaskEvent>,
    accepted: seq<TaskEvent>)

  const NewChannel := Channel(true, [], [], [])

  /** Where one appender stands. */
  datatype Phase =
    | Idle
    | SeqRead(m: Mutation)
    | Stored(e: TaskEvent)
    | Publishing(e: TaskEvent, todo: set<nat>)

  /** `subscribers` is the registry: subscriber id to task id. `panicked` records a send on a closed
      channel or a second close, either of which would crash the node. */
  datatype State = State(
    db: Db,
    phases: map<nat, Phase>,
    subscribers: map<nat, string>,
    channels: map<nat, Channel>,
    nextId: nat,
    panicked: bool)

  datatype Action =
    | ReadSeq(w: nat, draft: Mutation)
    | StoreEvent(w: nat, fault: TxFault)
    | FailTurnUpdate(w: nat)
    | StartPublish(w: nat)
    | SendTo(w: nat, id: nat)
    | EndPublish(w: nat)
    | Subscribe(taskId: string)
    | Unsubscribe(id: nat)
    | Receive(id: nat)

  function PhaseOf(s: State, w: nat): Phase {
    if w in s.phases then s.phases[w] else Idle
  }

  /** The write lock excludes every publisher. */
  predicate WriteLockFree(s: State) {
    forall w :: w in s.phases ==> !s.phases[w].Publishing?
  }

  /** The non-blocking send: a full queue drops the event. */
  function Offer(c: Channel, e: TaskEvent): Channel {
    if |c.queue| < QueueCapacity
    then c.(queue := c.queue + [e], offered := c.offered + [e], accepted := c.accepted + [e])
    else c.(offered := c.offered + [e])
  }

  predicate Enabled(s: State, a: Action) {
    match a
    case ReadSeq(w, _) => PhaseOf(s, w).Idle?
    case StoreEvent(w, _) => PhaseOf(s, w).SeqRead?
    case FailTurnUpdate(w) => PhaseOf(s, w).Stored?
    case StartPublish(w) => PhaseOf(s, w).Stored?
    case SendTo(w, id) => PhaseOf(s, w).Publishing? && id in PhaseOf(s, w).todo && id in s.channels
    case EndPublish(w) => PhaseOf(s, w).Publishing? && PhaseOf(s, w).todo == {}
    case Subscribe(_) => WriteLockFree(s)
    case Unsubscribe(id) => WriteLockFree(s) && id in s.channels
    case Receive(id) => id in s.channels && s.channels[id].queue != []
  }

  function Do(s: State, a: Action): State
    requires Enabled(s, a)
  {
    match a
    case ReadSeq(w, draft) =>
      s.(phases := s.phases[w := SeqRead(Numbered(s.db, draft))])
    case StoreEvent(w, fault) =>
      var m := PhaseOf(s, w).m;
      if fault == NoFault && !Taken(s.db.events, m.event.taskId, m.event.seqNo)
      then s.(db := Committed(s.db, m), phases := s.phases[w := Stored(m.event)])
      else s.(phases := s.phases[w := Idle])
    case FailTurnUpdate(w) => s.(phases := s.phases[w := Idle])
    case StartPublish(w) => s.(phases := s.phases[w := Publishing(PhaseOf(s, w).e, s.subscribers.Keys)])
    case SendTo(w, id) =>
      var Publishing(e, todo) := PhaseOf(s, w);
      var s' := s.(phases := s.phases[w := Publishing(e, todo - {id})]);
      if id !in s.subscribers || s.subscribers[id] != e.taskId then s'
      else if s.channels[id].open then s'.(channels := s.channels[id := Offer(s.channels[id], e)])
      else s'.(panicked := true)
    case EndPublish(w) => s.(phases := s.phases[w := Idle])
    case Subscribe(taskId) =>
      s.(subscribers := s.subscribers[s.nextId := taskId],
         channels := s.channels[s.nextId := NewChannel],
         nextId := s.nextId + 1)
    case Unsubscribe(id) =>
      if id !in s.subscribers then s
      else s.(subscribers := s.subscribers - {id},
              channels := s.channels[id := s.channels[id].(open := false)],
              panicked := s.panicked || !s.channels[id].open)
    case Receive(id) =>
      s.(channels := s.channels[id := s.channels[id].(queue := s.channels[id].queue[1..])])
  }

  /** Every action of a run is enabled when its turn comes. */
  ghost predicate Legal(s: State, run: seq<Action>)
    decreases run
  {
    run == [] || (Enabled(s, run[0]) && Legal(Do(s, run[0]), run[1..]))
  }

  function Exec(s: State, run: seq<Action>): State
    requires Legal(s, run)
    decreases run
  {
    if run == [] then s else Exec(Do(s, run[0]), run[1..])
  }

  // ---- What every run keeps ----

  /** `at` lists the positions of `b` that make up `a`. */
  predicate Picks(a: seq<TaskEvent>, b: seq<TaskEvent>, at: seq<nat>) {
    && |at| == |a|
    && (forall i, j :: 0 <= i < j < |at| ==> at[i] < at[j])
    && (forall i :: 0 <= i < |at| ==> at[i] < |b| && a[i] == b[at[i]])
  }

  /** `a` is what is left of `b` after leaving some elements out. */
  ghost predicate Subsequence(a: seq<TaskEvent>, b: seq<TaskEvent>) {
    exists at: seq<nat> :: Picks(a, b, at)
  }

  ghost predicate ChannelInv(c: Channel) {
    && |c.queue| <= QueueCapacity
    && |c.queue| <= |c.accepted|
    && c.queue == c.accepted[|c.accepted| - |c.queue|..]
    && Subsequence(c.accepted, c.offered)
  }

  /** A number that was read is at most one past the end of its log. */
  ghost predicate ReadInv(s: State) {
    forall w {:trigger PhaseOf(s, w)} :: PhaseOf(s, w).SeqRead? ==>
      var e := PhaseOf(s, w).m.event;
      1 <= e.seqNo <= |EventsOf(s.db.events, e.taskId)| + 1
  }

  ghost predicate StoredInv(s: State) {
    forall w {:trigger PhaseOf(s, w)} :: PhaseOf(s, w).Stored? || PhaseOf(s, w).Publishing? ==>
      PhaseOf(s, w).e in s.db.events
  }

  ghost predicate LogInv(s: State) {
    Contiguous(s.db.events) && ReadInv(s) && StoredInv(s)
  }

  /** Publishers have only registered subscribers to visit. */
  ghost predicate VisitsRegistered(s: State) {
    forall w {:trigger PhaseOf(s, w)} :: PhaseOf(s, w).Publishing? ==> PhaseOf(s, w).todo <= s.subscribers.Keys
  }

  /** The registry holds open channels only, and publishers have only registered ones to visit. */
  ghost predicate RegisteredInv(s: State) {
    && !s.panicked
    && (forall id :: id in s.subscribers ==> id in s.channels && s.channels[id].open)
    && (forall id :: id in s.channels ==> id < s.nextId)
    && VisitsRegistered(s)
  }

  ghost predicate QueuesInv(s: State) {
    forall id :: id in s.channels ==> ChannelInv(s.channels[id])
  }

  /** What is offered to a subscriber was committed, and belongs to its task. */
  ghost predicate OffersCommitted(s: State, id: nat, c: Channel) {
    forall e :: e in c.offered ==> e in s.db.events && (id in s.subscribers ==> e.taskId == s.subscribers[id])
  }

  ghost predicate OfferInv(s: State) {
    forall id :: id in s.channels ==> OffersCommitted(s, id, s.channels[id])
  }

  ghost predicate Inv(s: State) {
    LogInv(s) && RegisteredInv(s) && QueuesInv(s) && OfferInv(s)
  }

  /** A fresh node: whatever contiguous log is on disk, no appender at work, no subscriber. */
  ghost predicate Booted(s: State) {
    && Contiguous(s.db.events)
    && s.phases == map[] && s.subscribers == map[] && s.channels == map[]
    && !s.panicked
  }

  /** The appender an action belongs to, if any. */
  function ActorOf(a: Action): int {
    match a
    case ReadSeq(w, _) => w
    case StoreEvent(w, _) => w
    case FailTurnUpdate(w) => w
    case StartPublish(w) => w
    case SendTo(w, _) => w
    case EndPublish(w) => w
    case _ => -1
  }

  lemma OthersStay(s: State, a: Action, w: nat)
    requires Enabled(s, a) && w != ActorOf(a)
    ensures PhaseOf(Do(s, a), w) == PhaseOf(s, w)
  {
  }

  /** The event table after a step: unchanged, or one event longer. */
  lemma TableAfter(s: State, a: Action)
    requires Enabled(s, a)
    ensures Do(s, a).db.events == s.db.events
         || (a.StoreEvent? && !Taken(s.db.events, PhaseOf(s, a.w).m.event.taskId, PhaseOf(s, a.w).m.event.seqNo)
             && Do(s, a).db.events == s.db.events + [PhaseOf(s, a.w).m.event])
  {
  }

  lemma ContiguousKept(s: State, a: Action)
    requires LogInv(s) && Enabled(s, a)
    ensures Contiguous(Do(s, a).db.events)
  {
    TableAfter(s, a);
    if Do(s, a).db.events != s.db.events {
      var e := PhaseOf(s, a.w).m.event;
      ContiguousSeqs(s.db.events, e.taskId);
      AppendKeepsContiguous(s.db.events, e);
    }
  }

  lemma ReadInvKept(s: State, a: Action)
    requires LogInv(s) && Enabled(s, a)
    ensures ReadInv(Do(s, a))
  {
    var s' := Do(s, a);
    TableAfter(s, a);
    forall w | PhaseOf(s', w).SeqRead?
      ensures var e := PhaseOf(s', w).m.event;
              1 <= e.seqNo <= |EventsOf(s'.db.events, e.taskId)| + 1
    {
      if w == ActorOf(a) {
        assert a.ReadSeq?;
        ContiguousSeqs(s.db.events, a.draft.event.taskId);
      } else {
        OthersStay(s, a, w);
        if s'.db.events != s.db.events {
          EventsOfAppend(s.db.events, PhaseOf(s, a.w).m.event, PhaseOf(s, w).m.event.taskId);
        }
      }
    }
  }

  lemma StoredInvKept(s: State, a: Action)
    requires LogInv(s) && Enabled(s, a)
    ensures StoredInv(Do(s, a))
  {
    var s' := Do(s, a);
    TableAfter(s, a);
    forall w | PhaseOf(s', w).Stored? || PhaseOf(s', w).Publishing? ensures PhaseOf(s', w).e in s'.db.events {
      if w != ActorOf(a) {
        OthersStay(s, a, w);
      }
    }
  }

  lemma LogInvKept(s: State, a: Action)
    requires LogInv(s) && Enabled(s, a)
    ensures LogInv(Do(s, a))
  {
    ContiguousKept(s, a);
    ReadInvKept(s, a);
    StoredInvKept(s, a);
  }

  /** Cancelling or registering waits for publishers, so what they have yet to visit is registered. */
  lemma LockProtectsPublishers(s: State, a: Action)
    requires RegisteredInv(s) && Enabled(s, a)
    ensures VisitsRegistered(Do(s, a))
  {
    var s' := Do(s, a);
    forall w | PhaseOf(s', w).Publishing? ensures PhaseOf(s', w).todo <= s'.subscribers.Keys {
      if w == ActorOf(a) {
        assert a.StartPublish? || (a.SendTo? && PhaseOf(s', w).todo <= PhaseOf(s, w).todo);
      } else {
        OthersStay(s, a, w);
        assert s'.subscribers == s.subscribers;
      }
    }
  }

  /** The only ways a channel comes to be what it is after a step. */
  ghost predicate ChannelMove(s: State, a: Action, id: nat, c: Channel) {
    || (id in s.channels && c == s.channels[id])
    || (a.Subscribe? && id == s.nextId && c == NewChannel)
    || (id in s.channels && a.SendTo? && a.id == id && id in s.subscribers && PhaseOf(s, a.w).Publishing?
        && s.subscribers[id] == PhaseOf(s, a.w).e.taskId && c == Offer(s.channels[id], PhaseOf(s, a.w).e))
    || (id in s.channels && a.Unsubscribe? && c == s.channels[id].(open := false))
    || (id in s.channels && a.Receive? && s.channels[id].queue != []
        && c == s.channels[id].(queue := s.channels[id].queue[1..]))
  }

  lemma ChannelMoves(s: State, a: Action, id: nat)
    requires Enabled(s, a) && id in Do(s, a).channels
    ensures ChannelMove(s, a, id, Do(s, a).channels[id])
  {
  }

  lemma ChannelInvKept(s: State, a: Action, id: nat, c: Channel)
    requires ChannelMove(s, a, id, c) && (id in s.channels ==> ChannelInv(s.channels[id]))
    ensures ChannelInv(c)
  {
    NothingIsSubsequence([]);
    if id in s.channels {
      var before := s.channels[id];
      if a.SendTo? && PhaseOf(s, a.w).Publishing? {
        OfferKeepsChannel(before, PhaseOf(s, a.w).e);
      }
      if before.queue != [] {
        assert before.queue[1..] == before.accepted[|before.accepted| - |before.queue| + 1..];
      }
    }
  }

  lemma RegisteredStayOpen(s: State, a: Action)
    requires RegisteredInv(s) && Enabled(s, a)
    ensures !Do(s, a).panicked
    ensures forall id :: id in Do(s, a).subscribers ==> id in Do(s, a).channels && Do(s, a).channels[id].open
    ensures forall id :: id in Do(s, a).channels ==> id < Do(s, a).nextId
  {
    if a.SendTo? {
      assert PhaseOf(s, a.w).todo <= s.subscribers.Keys;
    }
  }

  lemma RegisteredInvKept(s: State, a: Action)
    requires RegisteredInv(s) && Enabled(s, a)
    ensures RegisteredInv(Do(s, a))
  {
    LockProtectsPublishers(s, a);
    RegisteredStayOpen(s, a);
  }

  lemma QueuesInvKept(s: State, a: Action)
    requires QueuesInv(s) && Enabled(s, a)
    ensures QueuesInv(Do(s, a))
  {
    forall id | id in Do(s, a).channels ensures ChannelInv(Do(s, a).channels[id]) {
      ChannelMoves(s, a, id);
      ChannelInvKept(s, a, id, Do(s, a).channels[id]);
    }
  }

  lemma SubsequenceExtends(a: seq<TaskEvent>, b: seq<TaskEvent>, e: TaskEvent)
    requires Subsequence(a, b)
    ensures Subsequence(a, b + [e]) && Subsequence(a + [e], b + [e])
  {
    var at: seq<nat> :| Picks(a, b, at);
    assert Picks(a, b + [e], at) && Picks(a + [e], b + [e], at + [|b|]);
  }

  lemma NothingIsSubsequence(b: seq<TaskEvent>)
    ensures Subsequence([], b)
  {
    assert Picks([], b, []);
  }

  lemma OfferKeepsChannel(c: Channel, e: TaskEvent)
    requires ChannelInv(c)
    ensures ChannelInv(Offer(c, e))
  {
    SubsequenceExtends(c.accepted, c.offered, e);
    var d := Offer(c, e);
    if |c.queue| < QueueCapacity {
      assert d.accepted[|d.accepted| - |d.queue|..] == c.accepted[|c.accepted| - |c.queue|..] + [e];
    }
  }

  lemma LogOnlyGrows(s: State, a: Action)
    requires RegisteredInv(s) && Enabled(s, a)
    ensures forall e :: e in s.db.events ==> e in Do(s, a).db.events
    ensures forall id :: id in Do(s, a).subscribers && id in s.subscribers ==> Do(s, a).subscribers[id] == s.subscribers[id]
    ensures forall id :: id in Do(s, a).subscribers && id in s.channels && id != s.nextId ==> id in s.subscribers
  {
  }

  lemma OfferInvKept(s: State, a: Action)
    requires RegisteredInv(s) && StoredInv(s) && OfferInv(s) && Enabled(s, a)
    ensures OfferInv(Do(s, a))
  {
    LogOnlyGrows(s, a);
    forall id | id in Do(s, a).channels ensures OffersCommitted(Do(s, a), id, Do(s, a).channels[id]) {
      var c := Do(s, a).channels[id];
      ChannelMoves(s, a, id);
      if id in s.channels {
        assert OffersCommitted(s, id, s.channels[id]);
      }
      if c != NewChannel && id in s.channels && c.offered != s.channels[id].offered {
        assert c.offered == s.channels[id].offered + [PhaseOf(s, a.w).e];
      }
    }
  }

  lemma InvKept(s: State, a: Action)
    requires Inv(s) && Enabled(s, a)
    ensures Inv(Do(s, a))
  {
    LogInvKept(s, a);
    RegisteredInvKept(s, a);
    QueuesInvKept(s, a);
    OfferInvKept(s, a);
  }

  lemma {:induction false} RunKeepsInv(s: State, run: seq<Action>)
    requires Inv(s) && Legal(s, run)
    ensures Inv(Exec(s, run))
    decreases run
  {
    if run != [] {
      InvKept(s, run[0]);
      RunKeepsInv(Do(s, run[0]), run[1..]);
    }
  }

  /** Main result for one log: in every run from a fresh node, however appends, subscriptions and
      failures interleave, each task's log is numbered 1..n, no channel is used after it is closed or
      closed twice, no queue outgrows its capacity, and what a subscriber took in is a subsequence of
      what was published to it, all of it committed. */
  lemma EveryRunIsSafe(s: State, run: seq<Action>)
    requires Booted(s) && Legal(s, run)
    ensures Contiguous(Exec(s, run).db.events)
    ensures !Exec(s, run).panicked
    ensures forall id :: id in Exec(s, run).channels ==>
              var c := Exec(s, run).channels[id];
              && |c.queue| <= QueueCapacity && Subsequence(c.accepted, c.offered)
              && (forall e :: e in c.offered ==> e in Exec(s, run).db.events)
  {
    RunKeepsInv(s, run);
  }

  /** An appender's transaction commits exactly when nobody has added to that task's log since the
      appender read its number; otherwise log and task rows stay as they were. */
  lemma StoreOutcome(s: State, w: nat)
    requires LogInv(s) && PhaseOf(s, w).SeqRead?
    ensures var m := PhaseOf(s, w).m;
            var s' := Do(s, StoreEvent(w, NoFault));
            && (PhaseOf(s', w).Stored? <==> m.event.seqNo == |EventsOf(s.db.events, m.event.taskId)| + 1)
            && (PhaseOf(s', w).Idle? <==> m.event.seqNo <= |EventsOf(s.db.events, m.event.taskId)|)
            && (PhaseOf(s', w).Idle? ==> s'.db == s.db)
            && (PhaseOf(s', w).Stored? ==> EventsOf(s'.db.events, m.event.taskId)
                                           == EventsOf(s.db.events, m.event.taskId) + [m.event])
  {
    var m := PhaseOf(s, w).m;
    ContiguousSeqs(s.db.events, m.event.taskId);
    EventsOfAppend(s.db.events, m.event, m.event.taskId);
  }

  /** Two appenders that read the same number: once one commits, the other is rolled back. */
  lemma OneWinnerPerNumber(s: State, w1: nat, w2: nat)
    requires LogInv(s) && w1 != w2 && PhaseOf(s, w1).SeqRead? && PhaseOf(s, w2).SeqRead?
    requires PhaseOf(s, w1).m.event.taskId == PhaseOf(s, w2).m.event.taskId
    requires PhaseOf(s, w1).m.event.seqNo == PhaseOf(s, w2).m.event.seqNo
    ensures var s1 := Do(s, StoreEvent(w1, NoFault));
            PhaseOf(s1, w1).Stored? ==> PhaseOf(Do(s1, StoreEvent(w2, NoFault)), w2).Idle?
                                        && Do(s1, StoreEvent(w2, NoFault)).db == s1.db
  {
    StoreOutcome(s, w1);
    var s1 := Do(s, StoreEvent(w1, NoFault));
    LogInvKept(s, StoreEvent(w1, NoFault));
    assert PhaseOf(s1, w2) == PhaseOf(s, w2);
    StoreOutcome(s1, w2);
  }

  /** Whenever two appenders of one task overlap in this way, in any state whatever, the one that read
      first is rolled back: both are past their transaction, the log holds only the other's event and
      the row says what that event said. Callers ignore the error, so a completion that loses to a
      cancel request is never recorded. */
  lemma OverlapLosesOne(s: State, w: nat, rival: nat, draft: Mutation, other: Mutation)
    requires LogInv(s) && w != rival && PhaseOf(s, w).Idle? && PhaseOf(s, rival).Idle?
    requires draft.event.taskId == other.event.taskId && draft.event.taskId in s.db.tasks
    ensures var run := [ReadSeq(w, draft), ReadSeq(rival, other), StoreEvent(rival, NoFault), StoreEvent(w, NoFault)];
            && Legal(s, run)
            && PhaseOf(Exec(s, run), w).Idle?
            && Exec(s, run).db == Committed(s.db, Numbered(s.db, other))
            && Exec(s, run).db.tasks[draft.event.taskId].status == other.event.state
  {
    var s1 := Do(s, ReadSeq(w, draft));
    var s2 := Do(s1, ReadSeq(rival, other));
    LogInvKept(s, ReadSeq(w, draft));
    LogInvKept(s1, ReadSeq(rival, other));
    OthersStay(s1, ReadSeq(rival, other), w);
    ContiguousSeqs(s.db.events, draft.event.taskId);
    assert PhaseOf(s2, w) == SeqRead(Numbered(s.db, draft));
    assert PhaseOf(s2, rival) == SeqRead(Numbered(s.db, other));
    StoreOutcome(s2, rival);
    OneWinnerPerNumber(s2, rival, w);
    var s3 := Do(s2, StoreEvent(rival, NoFault));
    assert s3.db == Committed(s.db, Numbered(s.db, other));
    OthersStay(s2, StoreEvent(rival, NoFault), w);
    FourSteps(s, ReadSeq(w, draft), ReadSeq(rival, other), StoreEvent(rival, NoFault), StoreEvent(w, NoFault));
  }

  lemma FourSteps(s: State, a: Action, b: Action, c: Action, d: Action)
    requires Enabled(s, a) && Enabled(Do(s, a), b) && Enabled(Do(Do(s, a), b), c)
    requires Enabled(Do(Do(Do(s, a), b), c), d)
    ensures Legal(s, [a, b, c, d])
    ensures Exec(s, [a, b, c, d]) == Do(Do(Do(Do(s, a), b), c), d)
  {
    var s1 := Do(s, a);
    var s2 := Do(s1, b);
    Stepwise(Do(s2, c), [d]);
    Stepwise(s2, [c, d]);
    Stepwise(s1, [b, c, d]);
    Stepwise(s, [a, b, c, d]);
  }

  /** Unfolds one action of a run. */
  lemma Stepwise(s: State, run: seq<Action>)
    requires run != [] && Enabled(s, run[0]) && Legal(Do(s, run[0]), run[1..])
    ensures Legal(s, run) && Exec(s, run) == Exec(Do(s, run[0]), run[1..])
  {
  }

  // ---- Each event is offered once ----

  /** Committed, and still owed to this subscriber if it follows the task. */
  predicate OwesId(s: State, w: nat, id: nat) {
    PhaseOf(s, w).Stored? || (PhaseOf(s, w).Publishing? && id in PhaseOf(s, w).todo)
  }

  predicate NoDup(events: seq<TaskEvent>) {
    forall i, j :: 0 <= i < j < |events| ==> events[i] != events[j]
  }

  /** No two appenders carry the same event. */
  ghost predicate DistinctInFlight(s: State) {
    forall w1, w2 {:trigger PhaseOf(s, w1), PhaseOf(s, w2)} ::
      w1 != w2 && (PhaseOf(s, w1).Stored? || PhaseOf(s, w1).Publishing?) && (PhaseOf(s, w2).Stored? || PhaseOf(s, w2).Publishing?)
      ==> PhaseOf(s, w1).e != PhaseOf(s, w2).e
  }

  /** What is still owed to a subscriber has not been offered to it. */
  ghost predicate OwedNotOffered(s: State) {
    forall w: nat, id: nat {:trigger OwesId(s, w, id)} ::
      id in s.channels && OwesId(s, w, id) ==> PhaseOf(s, w).e !in s.channels[id].offered
  }

  ghost predicate OnceInv(s: State) {
    DistinctInFlight(s) && OwedNotOffered(s) && forall id :: id in s.channels ==> NoDup(s.channels[id].offered)
  }

  /** The event that an appender carries past its transaction is the one it carried before, or has just
      been committed and is new to the table. */
  lemma CarriedBefore(s: State, a: Action, w: nat)
    requires LogInv(s) && Enabled(s, a) && (PhaseOf(Do(s, a), w).Stored? || PhaseOf(Do(s, a), w).Publishing?)
    ensures || ((PhaseOf(s, w).Stored? || PhaseOf(s, w).Publishing?) && PhaseOf(s, w).e == PhaseOf(Do(s, a), w).e)
            || (a.StoreEvent? && a.w == w && PhaseOf(Do(s, a), w).e !in s.db.events)
  {
    if w != ActorOf(a) {
      OthersStay(s, a, w);
    } else if a.StoreEvent? {
      var e := PhaseOf(s, w).m.event;
      assert e in s.db.events ==> Taken(s.db.events, e.taskId, e.seqNo);
    }
  }

  lemma DistinctKept(s: State, a: Action)
    requires LogInv(s) && DistinctInFlight(s) && Enabled(s, a)
    ensures DistinctInFlight(Do(s, a))
  {
    hide LogInv, Do, Enabled;
    var s' := Do(s, a);
    forall w1, w2 | w1 != w2 && (PhaseOf(s', w1).Stored? || PhaseOf(s', w1).Publishing?)
                    && (PhaseOf(s', w2).Stored? || PhaseOf(s', w2).Publishing?)
      ensures PhaseOf(s', w1).e != PhaseOf(s', w2).e
    {
      CarriedBefore(s, a, w1);
      CarriedBefore(s, a, w2);
      CarriedInTable(s, w1);
      CarriedInTable(s, w2);
    }
  }

  lemma CarriedInTable(s: State, w: nat)
    requires LogInv(s)
    ensures PhaseOf(s, w).Stored? || PhaseOf(s, w).Publishing? ==> PhaseOf(s, w).e in s.db.events
  {
  }

  /** What is owed after a step was owed before, or has just been committed, or the subscriber is new. */
  lemma OwedIdBefore(s: State, a: Action, w: nat, id: nat)
    requires Enabled(s, a) && OwesId(Do(s, a), w, id)
    ensures OwesId(s, w, id) || (a.StoreEvent? && a.w == w)
    ensures !(a.SendTo? && a.w == w && a.id == id)
  {
    if w != ActorOf(a) {
      OthersStay(s, a, w);
    }
  }

  lemma OwedNotOfferedKept(s: State, a: Action)
    requires LogInv(s) && OfferInv(s) && OnceInv(s) && Enabled(s, a)
    ensures OwedNotOffered(Do(s, a))
  {
    hide LogInv, Do;
    var s' := Do(s, a);
    forall w: nat, id: nat | id in s'.channels && OwesId(s', w, id) ensures PhaseOf(s', w).e !in s'.channels[id].offered {
      ChannelMoves(s, a, id);
      CarriedBefore(s, a, w);
      OwedIdBefore(s, a, w, id);
      if id in s.channels {
        assert OffersCommitted(s, id, s.channels[id]);
        CarriedInTable(s, w);
        if a.SendTo? && a.id == id {
          SenderPublishes(s, a);
          assert w == a.w || !OwesId(s, w, id) || PhaseOf(s, w).e != PhaseOf(s, a.w).e;
        }
      }
    }
  }

  lemma SenderPublishes(s: State, a: Action)
    requires Enabled(s, a) && a.SendTo?
    ensures PhaseOf(s, a.w).Publishing?
  {
  }

  lemma NoDupAppend(events: seq<TaskEvent>, e: TaskEvent)
    requires NoDup(events) && e !in events
    ensures NoDup(events + [e])
  {
  }

  lemma OnceKept(s: State, a: Action)
    requires Inv(s) && OnceInv(s) && Enabled(s, a)
    ensures OnceInv(Do(s, a))
  {
    DistinctKept(s, a);
    OwedNotOfferedKept(s, a);
    hide LogInv, RegisteredInv, QueuesInv, OfferInv, Do;
    forall id | id in Do(s, a).channels ensures NoDup(Do(s, a).channels[id].offered) {
      ChannelMoves(s, a, id);
      if a.SendTo? && a.id == id && id in s.channels {
        assert OwesId(s, a.w, id) by { SendsWhatItOwes(s, a); }
        NoDupAppend(s.channels[id].offered, PhaseOf(s, a.w).e);
      }
    }
  }

  lemma SendsWhatItOwes(s: State, a: Action)
    requires Enabled(s, a) && a.SendTo?
    ensures OwesId(s, a.w, a.id)
  {
  }

  lemma SubsequenceNoDup(a: seq<TaskEvent>, b: seq<TaskEvent>)
    requires Subsequence(a, b) && NoDup(b)
    ensures NoDup(a)
  {
    var at: seq<nat> :| Picks(a, b, at);
    forall i, j | 0 <= i < j < |a| ensures a[i] != a[j] {
      assert a[i] == b[at[i]] && a[j] == b[at[j]];
    }
  }

  lemma SubsequenceMembers(a: seq<TaskEvent>, b: seq<TaskEvent>)
    requires Subsequence(a, b)
    ensures forall e :: e in a ==> e in b
  {
    var at: seq<nat> :| Picks(a, b, at);
    forall e | e in a ensures e in b {
      var i :| 0 <= i < |a| && a[i] == e;
      assert a[i] == b[at[i]];
    }
  }

  lemma {:induction false} PickedFromBehind(a: seq<TaskEvent>, b: seq<TaskEvent>, at: seq<nat>, i: nat)
    requires Picks(a, b, at) && i < |at|
    ensures i <= at[i]
  {
    if i > 0 {
      PickedFromBehind(a, b, at, i - 1);
    }
  }

  lemma SubsequenceLength(a: seq<TaskEvent>, b: seq<TaskEvent>)
    requires Subsequence(a, b)
    ensures |a| <= |b|
  {
    var at: seq<nat> :| Picks(a, b, at);
    if a != [] {
      PickedFromBehind(a, b, at, |a| - 1);
    }
  }

  // ---- When a subscriber misses nothing ----

  /** The events with a number above `h`, in the order in which they come. */
  function Past(h: int, events: seq<TaskEvent>): seq<TaskEvent> {
    if events == [] then []
    else
      var before := Past(h, events[..|events| - 1]);
      if events[|events| - 1].seqNo > h then before + [events[|events| - 1]] else before
  }

  lemma PastAppend(h: int, events: seq<TaskEvent>, e: TaskEvent)
    ensures Past(h, events + [e]) == if e.seqNo > h then Past(h, events) + [e] else Past(h, events)
  {
    assert (events + [e])[..|events|] == events;
  }

  /** An event of the task past number `h` is committed, and still owed to this subscriber. */
  predicate Owes(s: State, w: nat, id: nat, taskId: string, h: int) {
    OwesId(s, w, id) && PhaseOf(s, w).e.taskId == taskId && PhaseOf(s, w).e.seqNo > h
  }

  ghost predicate Commits(s: State, a: Action, taskId: string)
    requires Enabled(s, a)
  {
    a.StoreEvent? && PhaseOf(s, a.w).m.event.taskId == taskId && Do(s, a).db != s.db
  }

  /** What keeps the offers to one subscriber in number order: past number `h`, no event is committed while
      an earlier one is still owed to it, no turn update fails, its queue has room, and it stays registered.
      Numbers may be read while other appends are under way, and any append may lose its number and be
      rolled back. */
  ghost predicate InOrder(s: State, a: Action, id: nat, taskId: string, h: int)
    requires Enabled(s, a)
  {
    && a != Unsubscribe(id)
    && (Commits(s, a, taskId) ==> forall w: nat :: !Owes(s, w, id, taskId, h))
    && (a.FailTurnUpdate? ==> !Owes(s, a.w, id, taskId, h))
    && (a.SendTo? && a.id == id && Owes(s, a.w, id, taskId, h) ==> |s.channels[id].queue| < QueueCapacity)
  }

  /** `ower` is the one appender, if any, that still owes this subscriber an event past `h`; that event ends
      the log, and up to it the subscriber took in the log itself past `h`. */
  ghost predicate GaplessWith(s: State, id: nat, taskId: string, h: int, ower: Option<nat>)
    requires id in s.channels
  {
    var log := EventsOf(s.db.events, taskId);
    && 0 <= h <= |log|
    && OneOwer(s, id, taskId, h, ower)
    && log[h..] == Past(h, s.channels[id].accepted) + OwedPart(s, ower)
  }

  function OwedPart(s: State, ower: Option<nat>): seq<TaskEvent> {
    if ower.Some? && (PhaseOf(s, ower.value).Stored? || PhaseOf(s, ower.value).Publishing?) then [PhaseOf(s, ower.value).e] else []
  }

  /** Past number `h` the subscriber took in the log itself, up to at most one event that is on its way. */
  ghost predicate Gapless(s: State, id: nat, taskId: string, h: int)
    requires id in s.channels
  {
    exists ower :: GaplessWith(s, id, taskId, h, ower)
  }

  /** The task's log after a step. */
  lemma LogAfter(s: State, a: Action, taskId: string)
    requires Enabled(s, a)
    ensures EventsOf(Do(s, a).db.events, taskId)
         == if Commits(s, a, taskId)
            then EventsOf(s.db.events, taskId) + [PhaseOf(s, a.w).m.event] else EventsOf(s.db.events, taskId)
    ensures a.StoreEvent? && Do(s, a).db != s.db ==> PhaseOf(Do(s, a), a.w) == Stored(PhaseOf(s, a.w).m.event)
    ensures a.StoreEvent? && Do(s, a).db == s.db ==> PhaseOf(Do(s, a), a.w).Idle?
  {
    if a.StoreEvent? {
      EventsOfAppend(s.db.events, PhaseOf(s, a.w).m.event, taskId);
      assert |Committed(s.db, PhaseOf(s, a.w).m).events| == |s.db.events| + 1;
    }
  }

  /** What a step does to the debts towards a registered subscriber. */
  lemma OwesAfter(s: State, a: Action, id: nat, taskId: string, h: int, w: nat)
    requires Enabled(s, a) && InOrder(s, a, id, taskId, h) && id in s.subscribers
    ensures Owes(Do(s, a), w, id, taskId, h) <==>
              if a.StoreEvent? && a.w == w then Commits(s, a, taskId) && PhaseOf(s, w).m.event.seqNo > h
              else Owes(s, w, id, taskId, h) && !(a.SendTo? && a.w == w && a.id == id)
    ensures Owes(Do(s, a), w, id, taskId, h) ==>
              PhaseOf(Do(s, a), w).e == if a.StoreEvent? && a.w == w then PhaseOf(s, w).m.event else PhaseOf(s, w).e
  {
    LogAfter(s, a, taskId);
    if w != ActorOf(a) {
      OthersStay(s, a, w);
    }
  }

  /** What a step does to what a registered subscriber took in past `h`. */
  lemma TakenInAfter(s: State, a: Action, id: nat, taskId: string, h: int)
    requires RegisteredInv(s) && Enabled(s, a) && InOrder(s, a, id, taskId, h)
    requires id in s.subscribers && s.subscribers[id] == taskId
    ensures id in s.channels && id in Do(s, a).channels
    ensures Past(h, Do(s, a).channels[id].accepted)
         == if a.SendTo? && a.id == id && Owes(s, a.w, id, taskId, h)
            then Past(h, s.channels[id].accepted) + [PhaseOf(s, a.w).e] else Past(h, s.channels[id].accepted)
  {
    assert id in Do(s, a).channels;
    ChannelMoves(s, a, id);
    if a.SendTo? {
      SendsWhatItOwes(s, a);
      PastAppend(h, s.channels[id].accepted, PhaseOf(s, a.w).e);
    }
  }

  /** `ower` is the one appender, if any, that owes. */
  ghost predicate OneOwer(s: State, id: nat, taskId: string, h: int, ower: Option<nat>) {
    forall w: nat {:trigger Owes(s, w, id, taskId, h)} :: Owes(s, w, id, taskId, h) <==> ower == Some(w)
  }

  lemma CommitterOwes(s: State, a: Action, id: nat, taskId: string, h: int)
    requires LogInv(s) && Enabled(s, a) && InOrder(s, a, id, taskId, h) && Commits(s, a, taskId) && id in s.subscribers
    requires h <= |EventsOf(s.db.events, taskId)|
    ensures OneOwer(Do(s, a), id, taskId, h, Some(a.w))
    ensures OwedPart(Do(s, a), Some(a.w)) == [PhaseOf(s, a.w).m.event]
  {
    LogAfter(s, a, taskId);
    CommitIsNext(s, a, taskId);
    forall w: nat ensures Owes(Do(s, a), w, id, taskId, h) <==> w == a.w {
      OwesAfter(s, a, id, taskId, h, w);
      NobodyOwes(s, a, id, taskId, h, w);
    }
  }

  lemma CommitKeepsGapless(s: State, a: Action, id: nat, taskId: string, h: int, ower: Option<nat>)
    requires LogInv(s) && RegisteredInv(s) && Enabled(s, a) && InOrder(s, a, id, taskId, h) && Commits(s, a, taskId)
    requires id in s.subscribers && s.subscribers[id] == taskId && id in s.channels && GaplessWith(s, id, taskId, h, ower)
    ensures id in Do(s, a).channels && GaplessWith(Do(s, a), id, taskId, h, Some(a.w))
  {
    var log, e := EventsOf(s.db.events, taskId), PhaseOf(s, a.w).m.event;
    hide LogInv, RegisteredInv, Do, InOrder, OneOwer;
    LogAfter(s, a, taskId);
    TakenInAfter(s, a, id, taskId, h);
    CommitterOwes(s, a, id, taskId, h);
    NoOwer(s, a, id, taskId, h, ower);
    assert (log + [e])[h..] == log[h..] + [e];
  }

  lemma NoOwer(s: State, a: Action, id: nat, taskId: string, h: int, ower: Option<nat>)
    requires Enabled(s, a) && InOrder(s, a, id, taskId, h) && Commits(s, a, taskId)
    requires id in s.channels && GaplessWith(s, id, taskId, h, ower)
    ensures ower == None
  {
    forall w: nat ensures ower != Some(w) {
      NobodyOwes(s, a, id, taskId, h, w);
    }
  }

  lemma NobodyOwes(s: State, a: Action, id: nat, taskId: string, h: int, w: nat)
    requires Enabled(s, a) && InOrder(s, a, id, taskId, h) && Commits(s, a, taskId)
    ensures !Owes(s, w, id, taskId, h)
  {
  }

  lemma CommitIsNext(s: State, a: Action, taskId: string)
    requires LogInv(s) && Enabled(s, a) && Commits(s, a, taskId)
    ensures PhaseOf(s, a.w).m.event.seqNo == |EventsOf(s.db.events, taskId)| + 1
  {
    StoreOutcome(s, a.w);
  }

  /** Who owes after a step that commits nothing. */
  function OwerAfter(a: Action, id: nat, ower: Option<nat>): Option<nat> {
    if a.SendTo? && a.id == id && ower == Some(a.w) then None else ower
  }

  lemma OwersAfter(s: State, a: Action, id: nat, taskId: string, h: int, ower: Option<nat>)
    requires Enabled(s, a) && InOrder(s, a, id, taskId, h) && !Commits(s, a, taskId) && id in s.subscribers
    requires OneOwer(s, id, taskId, h, ower)
    ensures OneOwer(Do(s, a), id, taskId, h, OwerAfter(a, id, ower))
  {
    hide Do, InOrder, Owes;
    forall w: nat ensures Owes(Do(s, a), w, id, taskId, h) <==> OwerAfter(a, id, ower) == Some(w) {
      OwesAfter(s, a, id, taskId, h, w);
      StorerOwesNothing(s, a, id, taskId, h);
    }
  }

  lemma StepKeepsGapless(s: State, a: Action, id: nat, taskId: string, h: int, ower: Option<nat>)
    requires RegisteredInv(s) && Enabled(s, a) && InOrder(s, a, id, taskId, h) && !Commits(s, a, taskId)
    requires id in s.subscribers && s.subscribers[id] == taskId && id in s.channels && GaplessWith(s, id, taskId, h, ower)
    ensures id in Do(s, a).channels && GaplessWith(Do(s, a), id, taskId, h, OwerAfter(a, id, ower))
  {
    hide RegisteredInv, Do, InOrder, OneOwer, Owes;
    LogAfter(s, a, taskId);
    TakenInAfter(s, a, id, taskId, h);
    OwersAfter(s, a, id, taskId, h, ower);
    OwerMeans(s, id, taskId, h, ower, a);
    OwedPartAfter(s, a, id, taskId, h, ower);
  }

  lemma OwerMeans(s: State, id: nat, taskId: string, h: int, ower: Option<nat>, a: Action)
    requires OneOwer(s, id, taskId, h, ower)
    ensures ower.Some? ==> Owes(s, ower.value, id, taskId, h)
    ensures a.SendTo? ==> (Owes(s, a.w, id, taskId, h) <==> ower == Some(a.w))
  {
  }

  /** The event on its way moves from what is owed to what was taken in, or stays what it is. */
  lemma OwedPartAfter(s: State, a: Action, id: nat, taskId: string, h: int, ower: Option<nat>)
    requires Enabled(s, a) && InOrder(s, a, id, taskId, h) && !Commits(s, a, taskId) && id in s.subscribers
    requires ower.Some? ==> Owes(s, ower.value, id, taskId, h)
    ensures ower.Some? ==> OwedPart(s, ower) == [PhaseOf(s, ower.value).e]
    ensures OwedPart(Do(s, a), OwerAfter(a, id, ower)) == if OwerAfter(a, id, ower) == None then [] else OwedPart(s, ower)
  {
    if ower.Some? {
      OwesAfter(s, a, id, taskId, h, ower.value);
      StorerOwesNothing(s, a, id, taskId, h);
    }
  }

  lemma StorerOwesNothing(s: State, a: Action, id: nat, taskId: string, h: int)
    requires Enabled(s, a)
    ensures a.StoreEvent? ==> !Owes(s, a.w, id, taskId, h)
  {
  }

  lemma GaplessKept(s: State, a: Action, id: nat, taskId: string, h: int)
    requires LogInv(s) && RegisteredInv(s) && Enabled(s, a) && InOrder(s, a, id, taskId, h)
    requires id in s.subscribers && s.subscribers[id] == taskId && id in s.channels && Gapless(s, id, taskId, h)
    ensures id in Do(s, a).channels && Gapless(Do(s, a), id, taskId, h)
  {
    hide GaplessWith, InOrder, Do, LogInv, RegisteredInv;
    var ower :| GaplessWith(s, id, taskId, h, ower);
    if Commits(s, a, taskId) {
      CommitKeepsGapless(s, a, id, taskId, h, ower);
    } else {
      StepKeepsGapless(s, a, id, taskId, h, ower);
    }
  }

  lemma TakenInIsLogged(s: State, id: nat, taskId: string)
    requires Inv(s) && id in s.channels && id in s.subscribers && s.subscribers[id] == taskId
    ensures forall e :: e in s.channels[id].accepted ==> e in EventsOf(s.db.events, taskId)
  {
    EventsOfMembers(s.db.events, taskId);
    assert ChannelInv(s.channels[id]) && OffersCommitted(s, id, s.channels[id]);
    SubsequenceMembers(s.channels[id].accepted, s.channels[id].offered);
  }

  lemma NobodyOwesPastEnd(s: State, w: nat, id: nat, taskId: string)
    requires LogInv(s)
    ensures !Owes(s, w, id, taskId, |EventsOf(s.db.events, taskId)|)
  {
    EventsOfMembers(s.db.events, taskId);
    LogIsNumbered(s.db.events, taskId);
    CarriedInTable(s, w);
    if OwesId(s, w, id) && PhaseOf(s, w).e.taskId == taskId {
      assert PhaseOf(s, w).e in EventsOf(s.db.events, taskId);
    }
  }

  lemma NumbersEndWithLog(log: seq<TaskEvent>, events: seq<TaskEvent>)
    requires IsNumbered(log) && forall e :: e in events ==> e in log
    ensures Past(|log|, events) == []
  {
    forall e | e in events ensures e.seqNo <= |log| {
      assert e in log;
    }
    NothingPast(|log|, events);
  }

  /** At the end of its log nothing past it has been taken in and nothing is on its way. */
  lemma GaplessAtEnd(s: State, id: nat, taskId: string)
    requires Inv(s) && id in s.channels && id in s.subscribers && s.subscribers[id] == taskId
    ensures Gapless(s, id, taskId, |EventsOf(s.db.events, taskId)|)
  {
    hide Inv, Owes, LogInv;
    var log := EventsOf(s.db.events, taskId);
    InvParts(s);
    LogInvContiguous(s);
    LogIsNumbered(s.db.events, taskId);
    TakenInIsLogged(s, id, taskId);
    NumbersEndWithLog(log, s.channels[id].accepted);
    forall w: nat ensures !Owes(s, w, id, taskId, |log|) {
      NobodyOwesPastEnd(s, w, id, taskId);
    }
    assert GaplessWith(s, id, taskId, |log|, None);
  }

  lemma LogInvContiguous(s: State)
    requires LogInv(s)
    ensures Contiguous(s.db.events)
  {
  }

  lemma {:induction false} NothingPast(h: int, events: seq<TaskEvent>)
    requires forall e :: e in events ==> e.seqNo <= h
    ensures Past(h, events) == []
  {
    if events != [] {
      NothingPast(h, events[..|events| - 1]);
    }
  }

  ghost predicate InOrderRun(s: State, run: seq<Action>, id: nat, taskId: string, h: int)
    requires Legal(s, run)
    decreases run
  {
    run == [] || (InOrder(s, run[0], id, taskId, h) && InOrderRun(Do(s, run[0]), run[1..], id, taskId, h))
  }

  /** From any moment on, a subscriber whose offers stay in order takes in the log itself, without a gap, as
      far as it has grown past that moment, up to one event that is still on its way. */
  lemma {:induction false} InOrderRunIsGapless(s: State, run: seq<Action>, id: nat, taskId: string, h: int)
    requires Inv(s) && Legal(s, run) && InOrderRun(s, run, id, taskId, h)
    requires id in s.channels && id in s.subscribers && s.subscribers[id] == taskId
    requires h == |EventsOf(s.db.events, taskId)| || Gapless(s, id, taskId, h)
    ensures id in Exec(s, run).channels && Gapless(Exec(s, run), id, taskId, h)
    decreases run
  {
    hide Inv, Gapless, InOrder, Do, Enabled;
    if h == |EventsOf(s.db.events, taskId)| {
      GaplessAtEnd(s, id, taskId);
    }
    if run != [] {
      InvKept(s, run[0]);
      InvParts(s);
      GaplessKept(s, run[0], id, taskId, h);
      InOrderStays(s, run[0], id, taskId, h);
      InOrderRunIsGapless(Do(s, run[0]), run[1..], id, taskId, h);
    }
  }

  lemma InvParts(s: State)
    requires Inv(s)
    ensures LogInv(s) && RegisteredInv(s)
  {
  }

  lemma InOrderStays(s: State, a: Action, id: nat, taskId: string, h: int)
    requires RegisteredInv(s) && Enabled(s, a) && InOrder(s, a, id, taskId, h) && id in s.subscribers
    ensures id in Do(s, a).subscribers && Do(s, a).subscribers[id] == s.subscribers[id]
  {
  }

  // ---- Appends that do not overlap ----

  ghost predicate BusyOn(s: State, w: nat, taskId: string) {
    match PhaseOf(s, w)
    case Idle => false
    case SeqRead(m) => m.event.taskId == taskId
    case Stored(e) => e.taskId == taskId
    case Publishing(e, _) => e.taskId == taskId
  }

  /** The stricter discipline: an append to the task starts only when none is under way, and its turn
      update does not fail. */
  ghost predicate Serial(s: State, a: Action, taskId: string) {
    && (a.ReadSeq? && a.draft.event.taskId == taskId ==> forall w: nat :: !BusyOn(s, w, taskId))
    && (a.FailTurnUpdate? ==> !BusyOn(s, a.w, taskId))
  }

  ghost predicate OneAppender(s: State, taskId: string) {
    forall w1: nat, w2: nat {:trigger PhaseOf(s, w1), PhaseOf(s, w2)} ::
      BusyOn(s, w1, taskId) && BusyOn(s, w2, taskId) ==> w1 == w2
  }

  lemma OneAppenderKept(s: State, a: Action, taskId: string)
    requires OneAppender(s, taskId) && Enabled(s, a) && Serial(s, a, taskId)
    ensures OneAppender(Do(s, a), taskId)
  {
    var s' := Do(s, a);
    forall w1: nat, w2: nat | BusyOn(s', w1, taskId) && BusyOn(s', w2, taskId) ensures w1 == w2 {
      BusyBefore(s, a, w1, taskId);
      BusyBefore(s, a, w2, taskId);
    }
  }

  /** A busy appender was busy before, unless it is the one that has just begun. */
  lemma BusyBefore(s: State, a: Action, w: nat, taskId: string)
    requires Enabled(s, a) && BusyOn(Do(s, a), w, taskId)
    ensures BusyOn(s, w, taskId) || (a.ReadSeq? && a.w == w && a.draft.event.taskId == taskId)
  {
    if w != ActorOf(a) {
      OthersStay(s, a, w);
    }
  }

  /** Appends that do not overlap are in order for every subscriber whose queue has room. */
  lemma SerialIsInOrder(s: State, a: Action, id: nat, taskId: string, h: int)
    requires OneAppender(s, taskId) && Enabled(s, a) && Serial(s, a, taskId)
    requires a != Unsubscribe(id)
    requires a.SendTo? && a.id == id && PhaseOf(s, a.w).e.taskId == taskId ==> |s.channels[id].queue| < QueueCapacity
    ensures InOrder(s, a, id, taskId, h)
  {
    if a.StoreEvent? {
      assert PhaseOf(s, a.w).SeqRead?;
      forall w: nat | Owes(s, w, id, taskId, h) ensures !Commits(s, a, taskId) {
        assert BusyOn(s, w, taskId);
      }
    }
  }

  /** A fresh node meets everything that the runs above start from. */
  lemma BootedIsReady(s: State, taskId: string)
    requires Booted(s)
    ensures Inv(s) && OnceInv(s) && OneAppender(s, taskId)
  {
    forall w: nat ensures !BusyOn(s, w, taskId) {
      assert PhaseOf(s, w) == Idle;
    }
  }

  lemma {:induction false} RunKeepsOnce(s: State, run: seq<Action>)
    requires Inv(s) && OnceInv(s) && Legal(s, run)
    ensures OnceInv(Exec(s, run))
    decreases run
  {
    hide Inv, OnceInv, Do, Enabled;
    if run != [] {
      InvKept(s, run[0]);
      OnceKept(s, run[0]);
      RunKeepsOnce(Do(s, run[0]), run[1..]);
    }
  }

  /** In every run from a fresh node a subscriber is offered each event at most once. */
  lemma OfferedOnce(s: State, run: seq<Action>)
    requires Booted(s) && Legal(s, run)
    ensures forall id :: id in Exec(s, run).channels ==>
              NoDup(Exec(s, run).channels[id].offered) && NoDup(Exec(s, run).channels[id].accepted)
  {
    BootedIsReady(s, "");
    RunKeepsInv(s, run);
    RunKeepsOnce(s, run);
    var s' := Exec(s, run);
    forall id | id in s'.channels ensures NoDup(s'.channels[id].accepted) {
      assert ChannelInv(s'.channels[id]);
      SubsequenceNoDup(s'.channels[id].accepted, s'.channels[id].offered);
    }
  }
}
