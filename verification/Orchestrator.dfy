/** The orchestrator object: event append with publication, and the subscriber registry. Each method
    runs here without interference and is tied to the interleaved protocol by the lemmas. */
module Orchestrator {
  import opened TaskTypes
  import opened EventStore
  import opened AppendProtocol

  /** The channels after an event was offered to the subscribers in `ids` that follow its task. */
  function PublishedTo(channels: map<nat, Channel>, subscribers: map<nat, string>, e: TaskEvent, ids: set<nat>): map<nat, Channel> {
    map id | id in channels ::
      if id in ids && id in subscribers && subscribers[id] == e.taskId then Offer(channels[id], e) else channels[id]
  }

  /** What one append leaves behind when nobody interferes. */
  function AppendedAlone(s: State, draft: Mutation, fault: TxFault, turnOk: bool): State {
    var m := Numbered(s.db, draft);
    if fault != NoFault then s
    else if !turnOk then s.(db := Committed(s.db, m))
    else s.(db := Committed(s.db, m), channels := PublishedTo(s.channels, s.subscribers, m.event, s.subscribers.Keys))
  }

  /** What a subscriber of the task sees of one published event: it is offered, and joins the queue exactly
      when there is room. */
  predicate GotOffer(before: Channel, after: Channel, e: TaskEvent) {
    && after.open == before.open && after.offered == before.offered + [e]
    && (if |before.queue| < 32
        then after.queue == before.queue + [e] && after.accepted == before.accepted + [e]
        else after.queue == before.queue && after.accepted == before.accepted)
  }

  /** The channels after an append: with `e` published, each subscriber of its task got its offer, and every
      other channel is as it was; with nothing published all are. */
  ghost predicate PublishedRight(before: map<nat, Channel>, after: map<nat, Channel>, subscribers: map<nat, string>, published: Option<TaskEvent>) {
    && after.Keys == before.Keys
    && forall id :: id in before ==>
         if published.Some? && id in subscribers && subscribers[id] == published.value.taskId
         then GotOffer(before[id], after[id], published.value)
         else after[id] == before[id]
  }

  /** What an undisturbed append does: nothing after a failed transaction; else the event ends the log under the
      next number, and it is published exactly when the turn update worked. */
  lemma AppendedAloneMeans(s: State, draft: Mutation, fault: TxFault, turnOk: bool)
    ensures var s', t := AppendedAlone(s, draft, fault, turnOk), draft.event.taskId;
            var e := draft.event.(seqNo := MaxSeq(s.db.events, t) + 1);
            && (fault != NoFault ==> s' == s)
            && (fault == NoFault ==> s'.db.events == s.db.events + [e] && s'.db.tasks.Keys == s.db.tasks.Keys
                                     && (t in s.db.tasks ==> s'.db.tasks[t].status == draft.event.state
                                                             && s'.db.tasks[t].lastError == draft.error))
            && PublishedRight(s.channels, s'.channels, s.subscribers, if fault == NoFault && turnOk then Some(e) else None)
            && s'.subscribers == s.subscribers && s'.phases == s.phases && s'.nextId == s.nextId && s'.panicked == s.panicked
  {
  }

  lemma PublishOne(channels: map<nat, Channel>, subscribers: map<nat, string>, e: TaskEvent, ids: set<nat>, id: nat)
    requires id in ids && id in channels
    ensures var one := if id in subscribers && subscribers[id] == e.taskId
                       then channels[id := Offer(channels[id], e)] else channels;
            PublishedTo(one, subscribers, e, ids - {id}) == PublishedTo(channels, subscribers, e, ids)
  {
  }

  /** Publishing visits the subscribers in any order; the order makes no difference. */
  lemma {:induction false} SendAll(s: State, w: nat) returns (run: seq<Action>)
    requires PhaseOf(s, w).Publishing? && PhaseOf(s, w).todo <= s.channels.Keys
    requires forall id :: id in s.subscribers && id in s.channels ==> s.channels[id].open
    ensures Legal(s, run)
    ensures Exec(s, run) == s.(phases := s.phases[w := Publishing(PhaseOf(s, w).e, {})],
                               channels := PublishedTo(s.channels, s.subscribers, PhaseOf(s, w).e, PhaseOf(s, w).todo))
    ensures forall a :: a in run ==> a.SendTo? && a.w == w
    decreases PhaseOf(s, w).todo
  {
    var e, todo := PhaseOf(s, w).e, PhaseOf(s, w).todo;
    if todo == {} {
      run := [];
      assert s.phases[w := Publishing(e, {})] == s.phases;
      assert PublishedTo(s.channels, s.subscribers, e, {}) == s.channels;
    } else {
      var id :| id in todo;
      var a := SendTo(w, id);
      PublishOne(s.channels, s.subscribers, e, todo, id);
      var rest := SendAll(Do(s, a), w);
      run := [a] + rest;
      assert run[1..] == rest;
      assert Do(s, a).phases[w := Publishing(e, {})] == s.phases[w := Publishing(e, {})];
      Stepwise(s, run);
    }
  }

  lemma {:induction false} RunConcat(s: State, first: seq<Action>, second: seq<Action>)
    requires Legal(s, first) && Legal(Exec(s, first), second)
    ensures Legal(s, first + second) && Exec(s, first + second) == Exec(Exec(s, first), second)
    decreases first
  {
    if first == [] {
      assert first + second == second;
    } else {
      RunConcat(Do(s, first[0]), first[1..], second);
      assert (first + second)[1..] == first[1..] + second;
    }
  }

  /** From its transaction on, a successful append publishes and is done. */
  lemma PublishRun(s: State, w: nat) returns (run: seq<Action>)
    requires PhaseOf(s, w).Stored?
    requires forall id :: id in s.subscribers ==> id in s.channels && s.channels[id].open
    ensures Legal(s, run)
    ensures Exec(s, run) == s.(phases := s.phases[w := Idle],
                               channels := PublishedTo(s.channels, s.subscribers, PhaseOf(s, w).e, s.subscribers.Keys))
    ensures forall a :: a in run ==> a.StartPublish? || a.SendTo? || a.EndPublish?
    ensures StartPublish(w) in run && EndPublish(w) in run
  {
    var s1 := Do(s, StartPublish(w));
    var sends := SendAll(s1, w);
    var s2 := Exec(s1, sends);
    Stepwise(s2, [EndPublish(w)]);
    RunConcat(s1, sends, [EndPublish(w)]);
    run := [StartPublish(w)] + (sends + [EndPublish(w)]);
    assert run[1..] == sends + [EndPublish(w)];
    Stepwise(s, run);
    assert Exec(s, run).phases == s.phases[w := Idle];
  }

  /** The read and the transaction, run back to back, cannot clash. */
  lemma StoreRun(s: State, w: nat, draft: Mutation, fault: TxFault)
    requires Contiguous(s.db.events) && PhaseOf(s, w).Idle?
    ensures var run := [ReadSeq(w, draft), StoreEvent(w, fault)];
            var m := Numbered(s.db, draft);
            && Legal(s, run)
            && Exec(s, run).phases == s.phases[w := if fault == NoFault then Stored(m.event) else Idle]
            && Exec(s, run) == s.(db := if fault == NoFault then Committed(s.db, m) else s.db, phases := Exec(s, run).phases)
  {
    var s1 := Do(s, ReadSeq(w, draft));
    ContiguousSeqs(s.db.events, draft.event.taskId);
    Stepwise(s1, [StoreEvent(w, fault)]);
    Stepwise(s, [ReadSeq(w, draft), StoreEvent(w, fault)]);
    assert [ReadSeq(w, draft), StoreEvent(w, fault)][1..] == [StoreEvent(w, fault)];
  }

  /** An append that nobody interrupts is one of the protocol's runs: the sequential method below and
      the interleaved steps agree on the log, the task rows and every channel. */
  lemma SoloAppendIsARun(s: State, w: nat, draft: Mutation, fault: TxFault, turnOk: bool) returns (run: seq<Action>)
    requires Contiguous(s.db.events) && PhaseOf(s, w).Idle?
    requires forall id :: id in s.subscribers ==> id in s.channels && s.channels[id].open
    ensures Legal(s, run)
    ensures fault == NoFault && turnOk ==> StartPublish(w) in run && EndPublish(w) in run
    ensures FailTurnUpdate(w) in run <==> fault == NoFault && !turnOk
    ensures Exec(s, run) == AppendedAlone(s, draft, fault, turnOk).(phases := s.phases[w := Idle])
  {
    StoreRun(s, w, draft, fault);
    hide Do, Enabled, MaxSeq, Committed, PublishedTo;
    run := [ReadSeq(w, draft), StoreEvent(w, fault)];
    var s1 := Exec(s, run);
    if fault == NoFault {
      hide Legal, Exec;
      var tail := AfterStore(s1, w, turnOk);
      RunConcat(s, run, tail);
      MembersOfBoth(run, tail);
      run := run + tail;
      assert s1.phases[w := Idle] == s.phases[w := Idle];
    }
  }

  lemma MembersOfBoth(a: seq<Action>, b: seq<Action>)
    ensures forall x :: x in a + b <==> x in a || x in b
  {
  }

  /** What follows the transaction: the publication, or the failed turn update. */
  lemma AfterStore(s: State, w: nat, turnOk: bool) returns (run: seq<Action>)
    requires PhaseOf(s, w).Stored?
    requires forall id :: id in s.subscribers ==> id in s.channels && s.channels[id].open
    ensures Legal(s, run)
    ensures Exec(s, run) == s.(phases := s.phases[w := Idle],
                               channels := if turnOk then PublishedTo(s.channels, s.subscribers, PhaseOf(s, w).e, s.subscribers.Keys)
                                           else s.channels)
    ensures turnOk ==> StartPublish(w) in run && EndPublish(w) in run
    ensures FailTurnUpdate(w) in run <==> !turnOk
    ensures forall a :: a in run ==> !a.ReadSeq? && !a.StoreEvent?
  {
    if turnOk {
      run := PublishRun(s, w);
    } else {
      run := [FailTurnUpdate(w)];
      Stepwise(s, run);
    }
  }

  class Orchestrator {
    const store: TaskStore
    var subscribers: map<nat, string>
    var channels: map<nat, Channel>
    var nextSubscriberId: nat

    ghost predicate Valid()
      reads this
    {
      && (forall id :: id in subscribers ==> id in channels && channels[id].open)
      && (forall id :: id in channels ==> id < nextSubscriberId)
    }

    /** This node as a protocol state with every appender at rest. */
    function Snapshot(): State
      reads this, store
    {
      State(store.Contents(), map[], subscribers, channels, nextSubscriberId, false)
    }

    constructor (store: TaskStore)
      ensures Valid() && this.store == store
      ensures Snapshot() == State(store.Contents(), map[], map[], map[], 0, false)
    {
      this.store := store;
      subscribers, channels, nextSubscriberId := map[], map[], 0;
    }

    /** Offers the event to the subscribers of its task, one after the other. */
    method Publish(e: TaskEvent)
      requires Valid()
      modifies this`channels
      ensures Valid()
      ensures channels == PublishedTo(old(channels), subscribers, e, subscribers.Keys)
    {
      ghost var before := channels;
      var todo := subscribers.Keys;
      while todo != {}
        invariant todo <= subscribers.Keys
        invariant channels == PublishedTo(before, subscribers, e, subscribers.Keys - todo)
      {
        var id :| id in todo;
        if subscribers[id] == e.taskId {
          channels := channels[id := Offer(channels[id], e)];
        }
        todo := todo - {id};
      }
      assert subscribers.Keys - todo == subscribers.Keys;
    }

    /** Reads the next number, commits event and row together, mirrors the state onto the thread turn
        and offers the event to the task's subscribers. */
    method AppendEvent(draft: Mutation, fault: TxFault, turnOk: bool) returns (appended: Option<TaskEvent>)
      requires Valid()
      modifies this, store
      ensures Valid()
      ensures Snapshot() == AppendedAlone(old(Snapshot()), draft, fault, turnOk)
      ensures appended == if fault == NoFault && turnOk
                          then Some(draft.event.(seqNo := MaxSeq(old(store.events), draft.event.taskId) + 1)) else None
      ensures PublishedRight(old(channels), channels, old(subscribers), appended) && subscribers == old(subscribers)
      ensures store.events == old(store.events) + if fault == NoFault
                then [draft.event.(seqNo := MaxSeq(old(store.events), draft.event.taskId) + 1)] else []
    {
      AppendedAloneMeans(Snapshot(), draft, fault, turnOk);
      hide PublishedRight, PublishedTo, MaxSeq, Committed, Taken;
      var seqNo := store.NextSeq(draft.event.taskId);
      var m := draft.(event := draft.event.(seqNo := seqNo));
      var ok := store.AppendEventAndUpdateTask(m, fault);
      if !ok || !turnOk {
        return None;
      }
      Publish(m.event);
      return Some(m.event);
    }

    method Subscribe(taskId: string) returns (id: nat)
      requires Valid()
      modifies this
      ensures Valid()
      ensures id == old(nextSubscriberId) && id !in old(channels)
      ensures Snapshot() == Do(old(Snapshot()), AppendProtocol.Subscribe(taskId))
      ensures subscribers == old(subscribers)[id := taskId] && channels == old(channels)[id := Channel(true, [], [], [])]
    {
      id := nextSubscriberId;
      nextSubscriberId := nextSubscriberId + 1;
      channels := channels[id := NewChannel];
      subscribers := subscribers[id := taskId];
    }

    /** The cancel function handed to a subscriber; calling it again does nothing. */
    method CancelSubscription(id: nat)
      requires Valid() && id in channels
      modifies this
      ensures Valid()
      ensures Snapshot() == Do(old(Snapshot()), Unsubscribe(id))
      ensures id !in subscribers && !(id in old(subscribers) && channels[id].open)
      ensures forall other :: other in old(channels) && other != id ==> other in channels && channels[other] == old(channels)[other]
      ensures forall other :: other != id ==> (other in subscribers <==> other in old(subscribers))
    {
      if id in subscribers {
        subscribers := subscribers - {id};
        channels := channels[id := channels[id].(open := false)];
      }
    }
  }

  // ---- One append as its callers see it ----

  /** How one append goes. */
  datatype Outcome = Outcome(fault: TxFault, turnOk: bool)
  {
    predicate Ok() {
      fault == NoFault && turnOk
    }
  }

  lemma SoloAppendKeepsContiguous(db: Db, draft: Mutation)
    requires Contiguous(db.events)
    ensures Contiguous(Committed(db, Numbered(db, draft)).events)
  {
    ContiguousSeqs(db.events, draft.event.taskId);
    AppendKeepsContiguous(db.events, Numbered(db, draft).event);
  }

  /** One append, seen from a caller: what it adds is the draft under a fresh number, or nothing. */
  method AppendDraft(core: Orchestrator, draft: Mutation, outcome: Outcome)
    returns (ok: bool, ghost gained: seq<TaskEvent>)
    requires core.Valid() && Contiguous(core.store.events)
    modifies core, core.store
    ensures core.Valid() && Contiguous(core.store.events) && ok == outcome.Ok()
    ensures core.store.events == old(core.store.events) + gained
    ensures |gained| == if outcome.fault == NoFault then 1 else 0
    ensures forall e :: e in gained ==> e == draft.event.(seqNo := e.seqNo)
    ensures core.store.Contents() == if outcome.fault == NoFault
              then Committed(old(core.store.Contents()), Numbered(old(core.store.Contents()), draft)) else old(core.store.Contents())
    ensures core.store.tasks.Keys == old(core.store.tasks.Keys)
    ensures outcome.fault == NoFault && draft.event.taskId in core.store.tasks ==>
              && core.store.tasks[draft.event.taskId].status == draft.event.state
              && core.store.tasks[draft.event.taskId].lastError == draft.error
    ensures outcome.fault != NoFault ==> core.store.tasks == old(core.store.tasks)
    ensures PublishedRight(old(core.channels), core.channels, old(core.subscribers), if ok then Some(gained[0]) else None)
    ensures core.subscribers == old(core.subscribers)
  {
    SoloAppendKeepsContiguous(core.store.Contents(), draft);
    gained := if outcome.fault == NoFault then [Numbered(core.store.Contents(), draft).event] else [];
    ghost var before := core.Snapshot();
    AppendedAloneMeans(before, draft, outcome.fault, outcome.turnOk);
    hide Committed, PublishedTo, PublishedRight;
    var appended := core.AppendEvent(draft, outcome.fault, outcome.turnOk);
    assert core.Snapshot().db.events == core.store.events && before.db.events + [] == before.db.events;
    assert core.Snapshot().db.tasks == core.store.tasks;
    ok := appended.Some?;
  }
}
