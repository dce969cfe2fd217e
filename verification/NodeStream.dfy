/** The peer event stream: subscribe, replay the log, then follow live events. A handler runs beside
    the appenders of AppendProtocol and reads the queue that they fill. */
module NodeStream {
  import opened TaskTypes
  import opened EventStore
  import opened AppendProtocol

  // ---- What the handler writes, as a function of what it read ----

  /** The events whose number is above every earlier one's and above `last`. */
  function Fresh(last: int, events: seq<TaskEvent>): (r: seq<TaskEvent>)
    decreases events
  {
    if events == [] then []
    else if events[0].seqNo <= last then Fresh(last, events[1..])
    else [events[0]] + Fresh(events[0].seqNo, events[1..])
  }

  /** The number the handler remembers after those events. */
  function LastSeq(last: int, events: seq<TaskEvent>): int
    decreases events
  {
    if events == [] then last
    else LastSeq(if events[0].seqNo <= last then last else events[0].seqNo, events[1..])
  }

  /** The live part stops after its first fresh terminal event. */
  function FreshUntilTerminal(last: int, events: seq<TaskEvent>): (r: seq<TaskEvent>)
    decreases events
  {
    if events == [] then []
    else if events[0].seqNo <= last then FreshUntilTerminal(last, events[1..])
    else if events[0].state.IsTerminal() then [events[0]]
    else [events[0]] + FreshUntilTerminal(events[0].seqNo, events[1..])
  }

  /** Everything written for a history that was read to its end and these later receptions. */
  function Emitted(history: seq<TaskEvent>, received: seq<TaskEvent>): seq<TaskEvent> {
    var replay := Fresh(0, history);
    if HasTerminal(replay) then replay
    else replay + FreshUntilTerminal(LastSeq(0, history), received)
  }

  // ---- The handler's loops ----

  /** What the non-blocking receive after a replayed event finds. */
  datatype Poll = Nothing | Got(event: TaskEvent) | QueueClosed

  /** What the live loop's select sees next. */
  datatype Signal = Event(event: TaskEvent) | KeepAliveDue | ContextDone | ChannelClosed

  datatype Item = Frame(event: TaskEvent) | KeepAlive

  function Frames(items: seq<Item>): (r: seq<TaskEvent>) {
    if items == [] then []
    else
      var rest := Frames(items[..|items| - 1]);
      if items[|items| - 1].Frame? then rest + [items[|items| - 1].event] else rest
  }

  lemma FramesAppend(items: seq<Item>, item: Item)
    ensures Frames(items + [item]) == if item.Frame? then Frames(items) + [item.event] else Frames(items)
  {
    assert (items + [item])[..|items|] == items;
  }

  function Polled(polls: seq<Poll>): seq<TaskEvent> {
    if polls == [] then []
    else
      var rest := Polled(polls[..|polls| - 1]);
      if polls[|polls| - 1].Got? then rest + [polls[|polls| - 1].event] else rest
  }

  /** The live events up to the signal that ends the stream, if one does. */
  function Heard(signals: seq<Signal>): seq<TaskEvent>
    decreases signals
  {
    if signals == [] || signals[0].ContextDone? || signals[0].ChannelClosed? then []
    else (if signals[0].Event? then [signals[0].event] else []) + Heard(signals[1..])
  }

  lemma {:induction false} FreshAppend(last: int, events: seq<TaskEvent>, e: TaskEvent)
    ensures Fresh(last, events + [e])
         == if e.seqNo <= LastSeq(last, events) then Fresh(last, events) else Fresh(last, events) + [e]
    ensures LastSeq(last, events + [e]) == if e.seqNo <= LastSeq(last, events) then LastSeq(last, events) else e.seqNo
    decreases events
  {
    if events != [] {
      assert (events + [e])[1..] == events[1..] + [e];
      FreshAppend(if events[0].seqNo <= last then last else events[0].seqNo, events[1..], e);
    }
  }

  lemma TerminalPrepend(e: TaskEvent, rest: seq<TaskEvent>)
    ensures HasTerminal([e] + rest) <==> e.state.IsTerminal() || HasTerminal(rest)
  {
    var all := [e] + rest;
    assert all[0] == e;
    assert forall i :: 0 <= i < |rest| ==> all[i + 1] == rest[i];
    assert forall i :: 1 <= i < |all| ==> all[i] == rest[i - 1];
  }

  lemma {:induction false} FreshUntilTerminalConcat(last: int, a: seq<TaskEvent>, b: seq<TaskEvent>)
    ensures FreshUntilTerminal(last, a + b)
         == FreshUntilTerminal(last, a)
            + if HasTerminal(FreshUntilTerminal(last, a)) then [] else FreshUntilTerminal(LastSeq(last, a), b)
    decreases a
  {
    if a == [] {
      assert a + b == b;
    } else {
      assert (a + b)[1..] == a[1..] + b;
      if a[0].seqNo <= last {
        FreshUntilTerminalConcat(last, a[1..], b);
      } else if a[0].state.IsTerminal() {
        TerminalPrepend(a[0], []);
        assert [a[0]] + [] == [a[0]];
      } else {
        FreshUntilTerminalConcat(a[0].seqNo, a[1..], b);
        TerminalPrepend(a[0], FreshUntilTerminal(a[0].seqNo, a[1..]));
      }
    }
  }

  lemma TerminalAppend(events: seq<TaskEvent>, e: TaskEvent)
    ensures HasTerminal(events + [e]) <==> HasTerminal(events) || e.state.IsTerminal()
  {
    var all := events + [e];
    assert all[|events|] == e;
    assert forall i :: 0 <= i < |events| ==> all[i] == events[i];
  }

  /** One more reception while the live part is open: skipped when stale, else written, and the live
      part ends with it when it is terminal. */
  lemma NextReception(last: int, seen: seq<TaskEvent>, e: TaskEvent, rest: seq<TaskEvent>)
    requires !HasTerminal(FreshUntilTerminal(last, seen))
    ensures e.seqNo <= LastSeq(last, seen) ==>
              FreshUntilTerminal(last, seen + [e]) == FreshUntilTerminal(last, seen)
              && LastSeq(last, seen + [e]) == LastSeq(last, seen)
    ensures e.seqNo > LastSeq(last, seen) ==>
              && FreshUntilTerminal(last, seen + [e]) == FreshUntilTerminal(last, seen) + [e]
              && LastSeq(last, seen + [e]) == e.seqNo
              && (HasTerminal(FreshUntilTerminal(last, seen + [e])) <==> e.state.IsTerminal())
              && (e.state.IsTerminal() ==> FreshUntilTerminal(last, seen + [e] + rest) == FreshUntilTerminal(last, seen + [e]))
  {
    FreshAppend(last, seen, e);
    FreshUntilTerminalConcat(last, seen, [e]);
    assert [e][1..] == [];
    TerminalAppend(FreshUntilTerminal(last, seen), e);
    FreshUntilTerminalConcat(last, seen + [e], rest);
  }

  // ---- What is written, by position ----

  /** The live loop comes to signal `i`: no earlier signal ends the stream. */
  predicate Comes(signals: seq<Signal>, i: int) {
    0 <= i < |signals| && forall j :: 0 <= j < i ==> !signals[j].ContextDone? && !signals[j].ChannelClosed?
  }

  /** Signal `i` is an event that the loop comes to, with a number above `last` and above every earlier event's. */
  predicate IsNews(last: int, signals: seq<Signal>, i: int) {
    && Comes(signals, i) && signals[i].Event? && signals[i].event.seqNo > last
    && forall j :: 0 <= j < i && signals[j].Event? ==> signals[j].event.seqNo < signals[i].event.seqNo
  }

  /** The live loop writes the event of signal `i`: it is news, and no news before it was terminal. */
  predicate WritesLive(last: int, signals: seq<Signal>, i: int) {
    IsNews(last, signals, i) && forall j :: 0 <= j < i && IsNews(last, signals, j) ==> !signals[j].event.state.IsTerminal()
  }

  lemma NewsAfter(last: int, signals: seq<Signal>, i: nat)
    requires 0 < i < |signals| && !signals[0].ContextDone? && !signals[0].ChannelClosed?
    ensures var next := if signals[0].Event? && signals[0].event.seqNo > last then signals[0].event.seqNo else last;
            IsNews(last, signals, i) <==> IsNews(next, signals[1..], i - 1)
  {
    var rest := signals[1..];
    assert forall j :: 0 <= j < |rest| ==> rest[j] == signals[j + 1];
    assert forall j :: 0 < j < |signals| ==> signals[j] == rest[j - 1];
  }

  lemma WritesAfter(last: int, signals: seq<Signal>, i: nat)
    requires 0 < i < |signals| && !signals[0].ContextDone? && !signals[0].ChannelClosed?
    ensures var news := signals[0].Event? && signals[0].event.seqNo > last;
            WritesLive(last, signals, i)
            <==> !(news && signals[0].event.state.IsTerminal())
                 && WritesLive(if news then signals[0].event.seqNo else last, signals[1..], i - 1)
  {
    var rest := signals[1..];
    var next := if signals[0].Event? && signals[0].event.seqNo > last then signals[0].event.seqNo else last;
    forall j: nat | 0 < j < |signals| ensures IsNews(last, signals, j) <==> IsNews(next, rest, j - 1) {
      NewsAfter(last, signals, j);
    }
    assert IsNews(last, signals, 0) <==> signals[0].Event? && signals[0].event.seqNo > last;
    hide IsNews;
    assert forall j :: 0 < j < |signals| ==> signals[j] == rest[j - 1];
    assert forall j :: 0 <= j < |rest| ==> (IsNews(next, rest, j) <==> IsNews(last, signals, j + 1)) && rest[j] == signals[j + 1];
  }

  /** The live part, by position: it holds exactly the events of the signals that are written, by ascending
      number. */
  lemma {:induction false} LiveByPosition(last: int, signals: seq<Signal>)
    ensures var live := FreshUntilTerminal(last, Heard(signals));
            && (forall e :: e in live <==> exists i :: WritesLive(last, signals, i) && signals[i].event == e)
            && StrictlyIncreasing(live) && forall e :: e in live ==> e.seqNo > last
    decreases signals
  {
    hide WritesLive;
    if signals == [] || signals[0].ContextDone? || signals[0].ChannelClosed? {
      NothingWritten(last, signals);
    } else {
      var news := signals[0].Event? && signals[0].event.seqNo > last;
      var next := if news then signals[0].event.seqNo else last;
      var rest := signals[1..];
      LiveByPosition(next, rest);
      FirstWritten(last, signals);
      forall i: nat | 0 < i < |signals| ensures WritesLive(last, signals, i)
           <==> !(news && signals[0].event.state.IsTerminal()) && WritesLive(next, rest, i - 1) {
        WritesAfter(last, signals, i);
      }
      HeardFirst(last, signals);
      ByPositionStep(last, signals, next, FreshUntilTerminal(next, Heard(rest)));
    }
  }

  lemma NothingWritten(last: int, signals: seq<Signal>)
    requires signals == [] || signals[0].ContextDone? || signals[0].ChannelClosed?
    ensures forall i :: !WritesLive(last, signals, i)
  {
  }

  lemma FirstWritten(last: int, signals: seq<Signal>)
    requires signals != []
    ensures WritesLive(last, signals, 0) <==> signals[0].Event? && signals[0].event.seqNo > last
    ensures forall i :: WritesLive(last, signals, i) ==> 0 <= i < |signals| && signals[i].Event?
    ensures forall l: int, i: int :: WritesLive(l, signals[1..], i) ==> 0 <= i < |signals| - 1 && signals[1..][i].Event?
  {
  }

  lemma HeardFirst(last: int, signals: seq<Signal>)
    requires signals != [] && !signals[0].ContextDone? && !signals[0].ChannelClosed?
    ensures var news := signals[0].Event? && signals[0].event.seqNo > last;
            var rest := FreshUntilTerminal(if news then signals[0].event.seqNo else last, Heard(signals[1..]));
            FreshUntilTerminal(last, Heard(signals))
            == if !news then rest else if signals[0].event.state.IsTerminal() then [signals[0].event] else [signals[0].event] + rest
  {
    if signals[0].Event? {
      var heard := [signals[0].event] + Heard(signals[1..]);
      assert heard[1..] == Heard(signals[1..]);
    } else {
      assert [] + Heard(signals[1..]) == Heard(signals[1..]);
    }
  }

  lemma ByPositionStep(last: int, signals: seq<Signal>, next: int, live: seq<TaskEvent>)
    requires signals != []
    requires var news := signals[0].Event? && signals[0].event.seqNo > last;
             && next == (if news then signals[0].event.seqNo else last)
             && (WritesLive(last, signals, 0) <==> news)
             && (forall i: nat :: 0 < i < |signals| ==>
                   (WritesLive(last, signals, i) <==> !(news && signals[0].event.state.IsTerminal()) && WritesLive(next, signals[1..], i - 1)))
    requires forall i :: WritesLive(last, signals, i) ==> 0 <= i < |signals| && signals[i].Event?
    requires forall i :: WritesLive(next, signals[1..], i) ==> 0 <= i < |signals| - 1 && signals[1..][i].Event?
    requires forall e :: e in live <==> exists i :: WritesLive(next, signals[1..], i) && signals[1..][i].event == e
    requires StrictlyIncreasing(live) && forall e :: e in live ==> e.seqNo > next
    ensures var news := signals[0].Event? && signals[0].event.seqNo > last;
            var all := if !news then live else if signals[0].event.state.IsTerminal() then [signals[0].event] else [signals[0].event] + live;
            && (forall e :: e in all <==> exists i :: WritesLive(last, signals, i) && signals[i].event == e)
            && StrictlyIncreasing(all) && forall e :: e in all ==> e.seqNo > last
  {
    hide WritesLive;
    var news := signals[0].Event? && signals[0].event.seqNo > last;
    var over := news && signals[0].event.state.IsTerminal();
    var all := if !news then live else if over then [signals[0].event] else [signals[0].event] + live;
    forall e ensures e in all <==> exists i :: WritesLive(last, signals, i) && signals[i].event == e {
      if e in live && !over {
        var i :| WritesLive(next, signals[1..], i) && signals[1..][i].event == e;
        assert WritesLive(last, signals, i + 1) && signals[i + 1].event == e;
      }
      if news && e == signals[0].event {
        assert WritesLive(last, signals, 0) && signals[0].event == e;
      }
      if i :| WritesLive(last, signals, i) && signals[i].event == e {
        if i > 0 {
          assert WritesLive(next, signals[1..], i - 1) && signals[1..][i - 1].event == e;
        }
      }
    }
    if news && !over {
      PrependIncreasing(signals[0].event, live, next);
    }
  }

  /** The replay writes `history[i]`: its number is positive and above every earlier one. */
  predicate WritesReplay(last: int, history: seq<TaskEvent>, i: int) {
    0 <= i < |history| && history[i].seqNo > last && forall j :: 0 <= j < i ==> history[j].seqNo < history[i].seqNo
  }

  lemma {:induction false} ReplayByPosition(last: int, history: seq<TaskEvent>)
    ensures var replay := Fresh(last, history);
            && (forall e :: e in replay <==> exists i :: WritesReplay(last, history, i) && history[i] == e)
            && StrictlyIncreasing(replay) && forall e :: e in replay ==> e.seqNo > last
    decreases history
  {
    if history != [] {
      var news := history[0].seqNo > last;
      var next, rest := if news then history[0].seqNo else last, history[1..];
      ReplayByPosition(next, rest);
      ReplayStep(last, history, next, Fresh(next, rest));
    }
  }

  lemma ReplayStep(last: int, history: seq<TaskEvent>, next: int, replay: seq<TaskEvent>)
    requires history != [] && next == (if history[0].seqNo > last then history[0].seqNo else last)
    requires forall e :: e in replay <==> exists i :: WritesReplay(next, history[1..], i) && history[1..][i] == e
    requires StrictlyIncreasing(replay) && forall e :: e in replay ==> e.seqNo > next
    ensures var all := if history[0].seqNo > last then [history[0]] + replay else replay;
            && (forall e :: e in all <==> exists i :: WritesReplay(last, history, i) && history[i] == e)
            && StrictlyIncreasing(all) && forall e :: e in all ==> e.seqNo > last
  {
    hide WritesReplay;
    var news, rest := history[0].seqNo > last, history[1..];
    var all := if news then [history[0]] + replay else replay;
    ReplayPositions(last, history);
    forall e ensures e in all <==> exists i :: WritesReplay(last, history, i) && history[i] == e {
      if e in replay {
        var i :| WritesReplay(next, rest, i) && rest[i] == e;
        assert WritesReplay(last, history, i + 1) && history[i + 1] == e;
      }
      if i :| WritesReplay(last, history, i) && history[i] == e {
        if i > 0 {
          assert WritesReplay(next, rest, i - 1) && rest[i - 1] == e;
        }
      }
      if news && e == history[0] {
        assert WritesReplay(last, history, 0) && history[0] == e;
      }
    }
    PrependIncreasing(history[0], replay, next);
  }

  lemma PrependIncreasing(e: TaskEvent, rest: seq<TaskEvent>, bound: int)
    requires StrictlyIncreasing(rest) && e.seqNo <= bound && forall x :: x in rest ==> x.seqNo > bound
    ensures StrictlyIncreasing([e] + rest)
  {
    var all := [e] + rest;
    forall i, j | 0 <= i < j < |all| ensures all[i].seqNo < all[j].seqNo {
      assert all[j] == rest[j - 1] && rest[j - 1] in rest;
      assert i > 0 ==> all[i] == rest[i - 1];
    }
  }

  lemma ReplayPositions(last: int, history: seq<TaskEvent>)
    requires history != []
    ensures var next := if history[0].seqNo > last then history[0].seqNo else last;
            && (WritesReplay(last, history, 0) <==> history[0].seqNo > last)
            && (forall i :: WritesReplay(last, history, i) ==> 0 <= i < |history|)
            && (forall i :: WritesReplay(next, history[1..], i) ==> 0 <= i < |history| - 1)
            && (forall i :: 0 < i < |history| ==> (WritesReplay(last, history, i) <==> WritesReplay(next, history[1..], i - 1)))
            && (forall i :: 0 <= i < |history| - 1 ==> (WritesReplay(last, history, i + 1) <==> WritesReplay(next, history[1..], i)))
  {
    var rest := history[1..];
    assert forall j :: 0 <= j < |rest| ==> rest[j] == history[j + 1];
    var next := if history[0].seqNo > last then history[0].seqNo else last;
    forall i | 0 < i < |history| ensures WritesReplay(last, history, i) <==> WritesReplay(next, rest, i - 1) {
      assert forall j :: 0 < j < i ==> history[j] == rest[j - 1];
    }
    hide WritesReplay;
    forall i | 0 <= i < |history| - 1 ensures WritesReplay(last, history, i + 1) <==> WritesReplay(next, rest, i) {
      assert WritesReplay(last, history, i + 1) <==> WritesReplay(next, rest, i + 1 - 1);
    }
  }

  /** The largest number in the history, or 0. */
  predicate IsHighest(base: int, history: seq<TaskEvent>) {
    && (forall e :: e in history ==> e.seqNo <= base)
    && (base == 0 || exists i :: 0 <= i < |history| && history[i].seqNo == base) && base >= 0
  }

  lemma {:induction false} LastSeqIsHighest(last: int, history: seq<TaskEvent>)
    ensures LastSeq(last, history) >= last && forall e :: e in history ==> e.seqNo <= LastSeq(last, history)
    ensures LastSeq(last, history) == last || exists i :: 0 <= i < |history| && history[i].seqNo == LastSeq(last, history)
    decreases history
  {
    if history != [] {
      var next := if history[0].seqNo <= last then last else history[0].seqNo;
      LastSeqIsHighest(next, history[1..]);
      if LastSeq(next, history[1..]) != next {
        var i :| 0 <= i < |history[1..]| && history[1..][i].seqNo == LastSeq(next, history[1..]);
        assert history[i + 1].seqNo == LastSeq(last, history);
      }
    }
  }

  /** What comes after the replay: what its polls found, in order, and then the live signals. */
  function Later(polls: seq<Poll>, signals: seq<Signal>): (r: seq<Signal>)
    ensures |r| == |polls| + |signals|
    ensures forall i :: 0 <= i < |polls| ==> r[i] == if polls[i].Got? then Event(polls[i].event) else KeepAliveDue
    ensures forall i :: 0 <= i < |signals| ==> r[|polls| + i] == signals[i]
  {
    seq(|polls|, i requires 0 <= i < |polls| => if polls[i].Got? then Event(polls[i].event) else KeepAliveDue) + signals
  }

  lemma {:induction false} HeardConcat(a: seq<Signal>, b: seq<Signal>)
    requires forall s :: s in a ==> !s.ContextDone? && !s.ChannelClosed?
    ensures Heard(a + b) == Heard(a) + Heard(b)
    decreases a
  {
    if a == [] {
      assert a + b == b;
    } else {
      assert (a + b)[1..] == a[1..] + b;
      HeardConcat(a[1..], b);
    }
  }

  lemma LaterShift(polls: seq<Poll>, signals: seq<Signal>)
    requires polls != []
    ensures var last := polls[|polls| - 1];
            Later(polls, signals) == Later(polls[..|polls| - 1], [if last.Got? then Event(last.event) else KeepAliveDue] + signals)
  {
  }

  lemma {:induction false} HeardLater(polls: seq<Poll>, signals: seq<Signal>)
    ensures Heard(Later(polls, signals)) == Polled(polls) + Heard(signals)
    decreases polls
  {
    if polls == [] {
      assert Later([], signals) == signals;
    } else {
      var front, last := polls[..|polls| - 1], polls[|polls| - 1];
      var signal := if last.Got? then Event(last.event) else KeepAliveDue;
      LaterShift(polls, signals);
      hide Later;
      HeardLater(front, [signal] + signals);
      assert ([signal] + signals)[1..] == signals;
    }
  }

  lemma {:induction false} FramesConcat(a: seq<Item>, b: seq<Item>)
    ensures Frames(a + b) == Frames(a) + Frames(b)
  {
    if b == [] {
      assert a + b == a;
    } else {
      var front, last := b[..|b| - 1], b[|b| - 1];
      FramesConcat(a, front);
      assert a + b == (a + front) + [last] && b == front + [last];
      FramesAppend(a + front, last);
      FramesAppend(front, last);
    }
  }

  lemma {:induction false} FramesMembers(items: seq<Item>)
    ensures forall e :: e in Frames(items) <==> Frame(e) in items
  {
    if items != [] {
      FramesMembers(items[..|items| - 1]);
      assert items == items[..|items| - 1] + [items[|items| - 1]];
    }
  }

  /** The frames among `items` stand by ascending number. */
  predicate Ascending(items: seq<Item>) {
    forall p, q :: 0 <= p < q < |items| && items[p].Frame? && items[q].Frame? ==> items[p].event.seqNo < items[q].event.seqNo
  }

  lemma {:induction false} FramesAscend(items: seq<Item>)
    requires StrictlyIncreasing(Frames(items))
    ensures Ascending(items)
  {
    if items != [] {
      var front, last := items[..|items| - 1], items[|items| - 1];
      assert items == front + [last];
      assert StrictlyIncreasing(Frames(front)) by {
        assert forall i :: 0 <= i < |Frames(front)| ==> Frames(front)[i] == Frames(items)[i];
      }
      FramesAscend(front);
      FramesMembers(front);
      if last.Frame? {
        forall p | 0 <= p < |front| && items[p].Frame? ensures items[p].event.seqNo < last.event.seqNo {
          assert front[p] == items[p] && items[p].event in Frames(front);
          var k :| 0 <= k < |Frames(front)| && Frames(front)[k] == items[p].event;
          assert Frames(items)[k] == items[p].event && Frames(items)[|Frames(front)|] == last.event;
        }
      }
    }
  }

  predicate FirstClosed(polls: seq<Poll>, k: int) {
    0 <= k < |polls| && polls[k] == QueueClosed && QueueClosed !in polls[..k]
  }

  lemma ReplayStarts(history: seq<TaskEvent>, polls: seq<Poll>)
    ensures Frames([]) == Fresh(0, history[..0]) == [] && LastSeq(0, history[..0]) == 0 && !HasTerminal([])
    ensures Polled(polls[..0]) == []
  {
  }

  lemma PolledNext(polls: seq<Poll>, k: nat)
    requires k < |polls|
    ensures Polled(polls[..k + 1]) == if polls[k].Got? then Polled(polls[..k]) + [polls[k].event] else Polled(polls[..k])
    ensures polls[..k + 1] == polls[..k] + [polls[k]]
  {
    assert polls[..k + 1][..k] == polls[..k];
  }

  /** The replay loop: writes the fresh history and sets aside what arrives meanwhile. */
  method ReplayHistory(history: seq<TaskEvent>, polls: seq<Poll>)
    returns (out: seq<Item>, lastReplaySeq: int, terminalReplayed: bool, bufferedLive: seq<TaskEvent>, closed: bool)
    requires |polls| == |Fresh(0, history)|
    ensures closed <==> QueueClosed in polls
    ensures !closed ==>
              && Frames(out) == Fresh(0, history) && lastReplaySeq == LastSeq(0, history)
              && (terminalReplayed <==> HasTerminal(Fresh(0, history)))
              && bufferedLive == Polled(polls)
    ensures forall k :: FirstClosed(polls, k) ==> Frames(out) == Fresh(0, history)[..k + 1]
  {
    out, lastReplaySeq, terminalReplayed, bufferedLive, closed := [], 0, false, [], false;
    var i, written := 0, 0;
    ReplayStarts(history, polls);
    hide Fresh, LastSeq, Polled, Frames, HasTerminal;
    while i < |history|
      invariant 0 <= i <= |history|
      invariant lastReplaySeq == LastSeq(0, history[..i])
      invariant Frames(out) == Fresh(0, history[..i]) && Frames(out) <= Fresh(0, history)
      invariant written == |Frames(out)|
      invariant terminalReplayed <==> HasTerminal(Frames(out))
      invariant bufferedLive == Polled(polls[..written]) && QueueClosed !in polls[..written]
    {
      var event := history[i];
      FreshAppend(0, history[..i], event);
      assert history[..i + 1] == history[..i] + [event];
      FreshPrefix(0, history, i + 1);
      i := i + 1;
      if event.seqNo <= lastReplaySeq {
        continue;
      }
      lastReplaySeq := event.seqNo;
      TerminalAppend(Frames(out), event);
      if event.state.IsTerminal() {
        terminalReplayed := true;
      }
      FramesAppend(out, Frame(event));
      out := out + [Frame(event)];
      var poll := polls[written];
      PolledNext(polls, written);
      written := written + 1;
      match poll {
        case Nothing =>
        case Got(liveEvent) => bufferedLive := bufferedLive + [liveEvent];
        case QueueClosed =>
          closed := true;
          return;
      }
    }
    assert history[..i] == history && polls[..written] == polls;
  }

  /** Where the live part stands: what it has written, what it remembers, and whether it is over. */
  ghost predicate LiveState(items: seq<Item>, last: int, heard: seq<TaskEvent>, out: seq<Item>, lastReplaySeq: int, done: bool) {
    && Frames(out) == Frames(items) + FreshUntilTerminal(last, heard)
    && (done <==> HasTerminal(FreshUntilTerminal(last, heard)))
    && (!done ==> lastReplaySeq == LastSeq(last, heard))
  }

  /** Writes one live event unless it is stale. */
  method WriteLive(event: TaskEvent, out: seq<Item>, lastReplaySeq: int,
                   ghost items: seq<Item>, ghost last: int, ghost heard: seq<TaskEvent>)
    returns (out': seq<Item>, lastReplaySeq': int, done: bool)
    requires LiveState(items, last, heard, out, lastReplaySeq, false)
    ensures out <= out' && LiveState(items, last, heard + [event], out', lastReplaySeq', done)
    ensures forall rest :: done ==> FreshUntilTerminal(last, heard + [event] + rest) == FreshUntilTerminal(last, heard + [event])
  {
    forall rest: seq<TaskEvent>
      ensures event.seqNo > lastReplaySeq && event.state.IsTerminal() ==>
                FreshUntilTerminal(last, heard + [event] + rest) == FreshUntilTerminal(last, heard + [event])
    {
      NextReception(last, heard, event, rest);
    }
    NextReception(last, heard, event, []);
    if event.seqNo <= lastReplaySeq {
      return out, lastReplaySeq, false;
    }
    FramesAppend(out, Frame(event));
    return out + [Frame(event)], event.seqNo, event.state.IsTerminal();
  }

  /** The buffered loop: `done` when a fresh terminal event was written. */
  method DrainBuffered(items: seq<Item>, last: int, bufferedLive: seq<TaskEvent>)
    returns (out: seq<Item>, lastReplaySeq: int, done: bool)
    ensures items <= out && LiveState(items, last, bufferedLive, out, lastReplaySeq, done)
  {
    out, lastReplaySeq, done := items, last, false;
    var i := 0;
    while i < |bufferedLive|
      invariant 0 <= i <= |bufferedLive|
      invariant items <= out && LiveState(items, last, bufferedLive[..i], out, lastReplaySeq, false)
    {
      out, lastReplaySeq, done := WriteLive(bufferedLive[i], out, lastReplaySeq, items, last, bufferedLive[..i]);
      assert bufferedLive[..i] + [bufferedLive[i]] == bufferedLive[..i + 1];
      i := i + 1;
      if done {
        assert bufferedLive[..i] + bufferedLive[i..] == bufferedLive;
        return;
      }
    }
    assert bufferedLive[..i] == bufferedLive;
  }

  /** The live loop. */
  method FollowLive(items: seq<Item>, last: int, signals: seq<Signal>) returns (out: seq<Item>)
    ensures Frames(out) == Frames(items) + FreshUntilTerminal(last, Heard(signals))
    ensures items <= out && Ascending(out[|items|..])
    ensures forall e :: Frame(e) in out[|items|..] <==> exists i :: WritesLive(last, signals, i) && signals[i].event == e
  {
    out := LiveLoop(items, last, signals);
    LiveByPosition(last, signals);
    NewFrames(items, out, FreshUntilTerminal(last, Heard(signals)));
  }

  /** Items added to `items` hold the frames that they add, in order. */
  lemma NewFrames(items: seq<Item>, out: seq<Item>, added: seq<TaskEvent>)
    requires items <= out && Frames(out) == Frames(items) + added && StrictlyIncreasing(added)
    ensures Ascending(out[|items|..]) && forall e :: Frame(e) in out[|items|..] <==> e in added
  {
    var more := out[|items|..];
    assert out == items + more;
    FramesConcat(items, more);
    assert Frames(more) == (Frames(items) + Frames(more))[|Frames(items)|..] == added;
    FramesMembers(more);
    FramesAscend(more);
  }

  lemma LiveStarts(items: seq<Item>, last: int)
    ensures LiveState(items, last, [], items, last, false) && Heard([]) == []
  {
  }

  lemma LiveSays(items: seq<Item>, last: int, heard: seq<TaskEvent>, out: seq<Item>, lastReplaySeq: int, done: bool)
    requires LiveState(items, last, heard, out, lastReplaySeq, done)
    ensures Frames(out) == Frames(items) + FreshUntilTerminal(last, heard)
  {
  }

  lemma KeepAliveSays(items: seq<Item>, last: int, heard: seq<TaskEvent>, out: seq<Item>, lastReplaySeq: int, done: bool)
    requires LiveState(items, last, heard, out, lastReplaySeq, done)
    ensures LiveState(items, last, heard, out + [KeepAlive], lastReplaySeq, done)
  {
    FramesAppend(out, KeepAlive);
  }

  lemma HeardNext(signals: seq<Signal>)
    requires signals != []
    ensures signals[0].ContextDone? || signals[0].ChannelClosed? ==> Heard(signals) == []
    ensures signals[0].KeepAliveDue? ==> Heard(signals) == Heard(signals[1..])
    ensures signals[0].Event? ==> Heard(signals) == [signals[0].event] + Heard(signals[1..])
  {
    assert [] + Heard(signals[1..]) == Heard(signals[1..]);
  }

  method LiveLoop(items: seq<Item>, last: int, signals: seq<Signal>) returns (out: seq<Item>)
    ensures items <= out && Frames(out) == Frames(items) + FreshUntilTerminal(last, Heard(signals))
  {
    out := items;
    var lastReplaySeq, done := last, false;
    ghost var heard: seq<TaskEvent> := [];
    LiveStarts(items, last);
    hide Frames, FreshUntilTerminal, LastSeq, HasTerminal, LiveState, Heard;
    assert signals[0..] == signals && heard + Heard(signals) == Heard(signals);
    var i := 0;
    while i < |signals|
      invariant 0 <= i <= |signals|
      invariant items <= out && heard + Heard(signals[i..]) == Heard(signals)
      invariant LiveState(items, last, heard, out, lastReplaySeq, false)
    {
      LiveSays(items, last, heard, out, lastReplaySeq, false);
      HeardNext(signals[i..]);
      assert signals[i..][1..] == signals[i + 1..] && signals[i..][0] == signals[i];
      assert heard + [] == heard;
      match signals[i] {
        case ContextDone => return;
        case ChannelClosed => return;
        case KeepAliveDue =>
          KeepAliveSays(items, last, heard, out, lastReplaySeq, false);
          out := out + [KeepAlive];
        case Event(event) =>
          assert heard + [event] + Heard(signals[i + 1..]) == Heard(signals);
          out, lastReplaySeq, done := WriteLive(event, out, lastReplaySeq, items, last, heard);
          heard := heard + [event];
          LiveSays(items, last, heard, out, lastReplaySeq, done);
          if done {
            return;
          }
      }
      i := i + 1;
    }
    assert signals[i..] == [] && heard + [] == heard;
    LiveSays(items, last, heard, out, lastReplaySeq, false);
  }

  lemma EmittedInTwoParts(history: seq<TaskEvent>, first: seq<TaskEvent>, second: seq<TaskEvent>)
    requires !HasTerminal(Fresh(0, history))
    ensures var base := LastSeq(0, history);
            var part := FreshUntilTerminal(base, first);
            Emitted(history, first + second)
            == Fresh(0, history) + part + if HasTerminal(part) then [] else FreshUntilTerminal(LastSeq(base, first), second)
  {
    FreshUntilTerminalConcat(LastSeq(0, history), first, second);
  }

  /** What the whole handler writes, by position: the events of the history that are replayed, and, unless one
      of them is terminal, the events of later polls and signals that are news beyond the history, up to
      the first terminal one. */
  ghost predicate HandlerWrites(history: seq<TaskEvent>, polls: seq<Poll>, signals: seq<Signal>, base: int, e: TaskEvent) {
    || (exists i :: WritesReplay(0, history, i) && history[i] == e)
    || ((forall i :: WritesReplay(0, history, i) ==> !history[i].state.IsTerminal())
        && exists i :: WritesLive(base, Later(polls, signals), i) && Later(polls, signals)[i].event == e)
  }

  lemma EmittedByPosition(history: seq<TaskEvent>, polls: seq<Poll>, signals: seq<Signal>, base: int)
    requires IsHighest(base, history)
    ensures var r := Emitted(history, Polled(polls) + Heard(signals));
            && StrictlyIncreasing(r) && forall e :: e in r <==> HandlerWrites(history, polls, signals, base, e)
  {
    HighestIs(base, history);
    HeardLater(polls, signals);
    ReplayByPosition(0, history);
    LiveByPosition(base, Later(polls, signals));
    ReplayBelow(base, history);
    JoinIncreasing(Fresh(0, history), FreshUntilTerminal(base, Heard(Later(polls, signals))), base);
    hide Emitted, HandlerWrites;
    EmittedIs(history, Polled(polls) + Heard(signals));
    forall e ensures e in Emitted(history, Polled(polls) + Heard(signals)) <==> HandlerWrites(history, polls, signals, base, e) {
      EmittedMember(history, polls, signals, base, e);
    }
  }

  lemma EmittedIs(history: seq<TaskEvent>, received: seq<TaskEvent>)
    ensures Emitted(history, received) == Fresh(0, history)
         || Emitted(history, received) == Fresh(0, history) + FreshUntilTerminal(LastSeq(0, history), received)
  {
  }

  lemma EmittedMember(history: seq<TaskEvent>, polls: seq<Poll>, signals: seq<Signal>, base: int, e: TaskEvent)
    requires IsHighest(base, history)
    ensures e in Emitted(history, Polled(polls) + Heard(signals)) <==> HandlerWrites(history, polls, signals, base, e)
  {
    HighestIs(base, history);
    HeardLater(polls, signals);
    assert e in Fresh(0, history) <==> exists i :: WritesReplay(0, history, i) && history[i] == e by {
      ReplayByPosition(0, history);
    }
    var later := Later(polls, signals);
    assert e in FreshUntilTerminal(base, Heard(later)) <==> exists i :: WritesLive(base, later, i) && later[i].event == e by {
      LiveByPosition(base, later);
    }
    ReplayEnds(history);
    hide WritesReplay, WritesLive, Later, Fresh, FreshUntilTerminal, LastSeq, Heard, IsHighest, HasTerminal;
    JoinMembers(Fresh(0, history), FreshUntilTerminal(base, Heard(later)));
  }

  lemma JoinMembers(a: seq<TaskEvent>, b: seq<TaskEvent>)
    ensures forall e :: e in a + b <==> e in a || e in b
  {
  }

  lemma HighestIs(base: int, history: seq<TaskEvent>)
    requires IsHighest(base, history)
    ensures base == LastSeq(0, history)
  {
    LastSeqIsHighest(0, history);
  }

  lemma ReplayBelow(base: int, history: seq<TaskEvent>)
    requires IsHighest(base, history)
    ensures forall e :: e in Fresh(0, history) ==> e.seqNo <= base
  {
    ReplayByPosition(0, history);
    forall e | e in Fresh(0, history) ensures e.seqNo <= base {
      var i :| WritesReplay(0, history, i) && history[i] == e;
      assert history[i] in history;
    }
  }

  lemma ReplayEnds(history: seq<TaskEvent>)
    ensures HasTerminal(Fresh(0, history)) <==> !(forall i :: WritesReplay(0, history, i) ==> !history[i].state.IsTerminal())
  {
    ReplayByPosition(0, history);
    var replay := Fresh(0, history);
    if HasTerminal(replay) {
      var k :| 0 <= k < |replay| && replay[k].state.IsTerminal();
      assert replay[k] in replay;
    }
    if i :| WritesReplay(0, history, i) && history[i].state.IsTerminal() {
      assert history[i] in replay;
    }
  }

  lemma JoinIncreasing(a: seq<TaskEvent>, b: seq<TaskEvent>, bound: int)
    requires StrictlyIncreasing(a) && StrictlyIncreasing(b)
    requires (forall e :: e in a ==> e.seqNo <= bound) && forall e :: e in b ==> e.seqNo > bound
    ensures StrictlyIncreasing(a + b)
  {
    forall i, j | 0 <= i < j < |a + b| ensures (a + b)[i].seqNo < (a + b)[j].seqNo {
      assert i < |a| ==> a[i] in a;
      assert j >= |a| ==> b[j - |a|] in b;
    }
  }

  /** The whole handler, over a history, the polls made while replaying it, and the live signals. */
  method HandleNodeTaskEvents(history: seq<TaskEvent>, polls: seq<Poll>, signals: seq<Signal>) returns (out: seq<Item>)
    requires |polls| == |Fresh(0, history)|
    ensures QueueClosed !in polls ==> Frames(out) == Emitted(history, Polled(polls) + Heard(signals))
    ensures forall k :: FirstClosed(polls, k) ==> Frames(out) == Fresh(0, history)[..k + 1]
    ensures Ascending(out)
    ensures forall base :: QueueClosed !in polls && IsHighest(base, history) ==>
              forall e :: Frame(e) in out <==> HandlerWrites(history, polls, signals, base, e)
  {
    out := ReplayThenFollow(history, polls, signals);
    hide HandlerWrites, IsHighest, Later;
    FramesMembers(out);
    ReplayByPosition(0, history);
    forall base | QueueClosed !in polls && IsHighest(base, history)
      ensures StrictlyIncreasing(Frames(out)) && forall e :: Frame(e) in out <==> HandlerWrites(history, polls, signals, base, e)
    {
      EmittedByPosition(history, polls, signals, base);
    }
    HighestExists(history);
    if QueueClosed in polls {
      var k := FirstClosedIs(polls);
      assert StrictlyIncreasing(Fresh(0, history)[..k + 1]);
    }
    FramesAscend(out);
  }

  lemma HighestExists(history: seq<TaskEvent>)
    ensures IsHighest(LastSeq(0, history), history)
  {
    LastSeqIsHighest(0, history);
  }

  lemma {:induction false} FirstClosedIs(polls: seq<Poll>) returns (k: int)
    requires QueueClosed in polls
    ensures FirstClosed(polls, k)
    decreases polls
  {
    if QueueClosed in polls[..|polls| - 1] {
      k := FirstClosedIs(polls[..|polls| - 1]);
      assert polls[..|polls| - 1][..k] == polls[..k];
    } else {
      k := |polls| - 1;
    }
  }

  method ReplayThenFollow(history: seq<TaskEvent>, polls: seq<Poll>, signals: seq<Signal>) returns (out: seq<Item>)
    requires |polls| == |Fresh(0, history)|
    ensures QueueClosed !in polls ==> Frames(out) == Emitted(history, Polled(polls) + Heard(signals))
    ensures forall k :: FirstClosed(polls, k) ==> Frames(out) == Fresh(0, history)[..k + 1]
  {
    var lastReplaySeq, terminalReplayed, bufferedLive, closed, done;
    out, lastReplaySeq, terminalReplayed, bufferedLive, closed := ReplayHistory(history, polls);
    if closed || terminalReplayed {
      return;
    }
    EmittedInTwoParts(history, bufferedLive, Heard(signals));
    out, lastReplaySeq, done := DrainBuffered(out, lastReplaySeq, bufferedLive);
    if done {
      return;
    }
    out := FollowLive(out, lastReplaySeq, signals);
  }

  lemma {:induction false} FreshPrefix(last: int, events: seq<TaskEvent>, n: nat)
    requires n <= |events|
    ensures Fresh(last, events[..n]) <= Fresh(last, events)
    decreases events
  {
    if n > 0 {
      assert events[..n][1..] == events[1..][..n - 1];
      FreshPrefix(if events[0].seqNo <= last then last else events[0].seqNo, events[1..], n - 1);
    }
  }

}
