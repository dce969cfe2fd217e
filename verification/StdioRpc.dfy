/** The JSON-RPC multiplexer over a worker's standard streams: requesters share one pending map with the
    read loop, which gives each of them its reply. Their steps interleave freely. */
module StdioRpc {
  import opened TaskTypes

  // ---- Ids on the wire ----

  /** Request ids come from a 64-bit counter. */
  const IdSpace: nat := 0x1_0000_0000_0000_0000

  /** The integers up to here are doubles, and a decoded id is a double. */
  const ExactBelow: nat := 0x20_0000_0000_0000

  /** The distance between neighbouring doubles at `n`. */
  function Spacing(n: nat): (u: nat)
    ensures u >= 1
  {
    if n < ExactBelow then 1 else 2 * Spacing(n / 2)
  }

  /** The multiple of `u` nearest to `n`, ties to an even multiple. */
  function Rounded(n: nat, u: nat): nat
    requires u >= 1
  {
    var q, r := n / u, n % u;
    if 2 * r < u || (2 * r == u && q % 2 == 0) then q * u else (q + 1) * u
  }

  /** The double nearest to `n`. */
  function Nearest(n: nat): nat {
    Rounded(n, Spacing(n))
  }

  lemma RoundIsExact(n: nat, u: nat, q: nat, r: nat)
    requires n == q * u + r && r < u
    ensures q * u == n <==> r == 0
    ensures (q + 1) * u != n
  {
    assert (q + 1) * u == q * u + u;
  }

  lemma RoundedIsExact(n: nat, u: nat)
    requires u >= 1
    ensures Rounded(n, u) == n <==> n % u == 0
  {
    assert n == n / u * u + n % u;
    RoundIsExact(n, u, n / u, n % u);
  }

  lemma SpacingIsSmall(n: nat)
    requires n <= ExactBelow
    ensures n % Spacing(n) == 0
  {
    if n == ExactBelow {
      assert Spacing(n / 2) == 1;
      assert Spacing(n) == 2;
    }
  }

  /** An id that a worker echoes comes back as sent exactly when it is a double. */
  lemma EchoIsExact(n: nat)
    ensures Nearest(n) == n <==> n % Spacing(n) == 0
    ensures n <= ExactBelow ==> Nearest(n) == n
  {
    hide Spacing, Rounded;
    RoundedIsExact(n, Spacing(n));
    if n <= ExactBelow {
      SpacingIsSmall(n);
    }
  }

  /** The first id that does not come back: the reply to it names the request before it. */
  lemma FirstInexactEcho()
    ensures Nearest(ExactBelow + 1) == ExactBelow
    ensures forall n: nat :: n <= ExactBelow ==> Nearest(n) == n
  {
    assert Spacing(ExactBelow + 1) == 2 * Spacing((ExactBelow + 1) / 2);
    forall n: nat | n <= ExactBelow ensures Nearest(n) == n {
      EchoIsExact(n);
    }
  }

  // ---- The protocol ----

  /** A message with a numeric id, after decoding: `key` is what the id was truncated to and `line` says
      which line it was. */
  datatype Message = Message(line: nat, key: nat, body: JsonMap)

  /** A reply channel: room for one message, and whether it is closed. */
  datatype Channel = Channel(buffer: Option<Message>, closed: bool)

  datatype Outcome = Reply(message: Message) | TimedOut | WorkerExited | WriteFailed

  /** Where one requester stands. */
  datatype Phase = Begun | Registered | Waiting | TimingOut | Done(outcome: Outcome)

  /** Where the read loop stands: `Holding` and `Sent` have a channel in hand that is no longer pending. */
  datatype Reader = Reading | Holding(n: nat, message: Message) | Sent(n: nat) | Draining | Drained | Ended

  /** Requesters are numbered 1, 2, ... as they begin; `pending` maps a wire id to a requester.
      `routedTo` is history: the requester each line was taken for. `panicked` records a send on a closed
      channel or a second close. */
  datatype State = State(
    issued: nat,
    phases: map<nat, Phase>,
    channels: map<nat, Channel>,
    pending: map<nat, nat>,
    reader: Reader,
    lines: nat,
    routedTo: map<nat, nat>,
    panicked: bool)

  datatype Action =
    | Begin
    | Register(n: nat)
    | Write(n: nat, ok: bool)
    | ReadLine(key: nat, body: JsonMap)
    | SkipLine
    | SendHeld
    | CloseHeld
    | EndOfStream
    | DrainOne(key: nat)
    | EndDrain
    | MarkClosed
    | Receive(n: nat)
    | FireTimeout(n: nat)
    | ForgetTimedOut(n: nat)
    | SeeClosed(n: nat)

  /** The wire id of the `n`-th request. */
  function IdOf(n: nat): nat {
    n % IdSpace
  }

  predicate InPhase(s: State, n: nat, p: Phase) {
    n in s.phases && s.phases[n] == p && n in s.channels
  }

  predicate Enabled(s: State, a: Action) {
    match a
    case Begin => true
    case Register(n) => InPhase(s, n, Begun) && !s.reader.Draining?
    case Write(n, _) => InPhase(s, n, Registered)
    case ReadLine(_, _) => s.reader.Reading?
    case SkipLine => s.reader.Reading?
    case SendHeld => s.reader.Holding? && s.reader.n in s.channels
    case CloseHeld => s.reader.Sent? && s.reader.n in s.channels
    case EndOfStream => s.reader.Reading?
    case DrainOne(key) => s.reader.Draining? && key in s.pending && s.pending[key] in s.channels
    case EndDrain => s.reader.Draining? && s.pending == map[]
    case MarkClosed => s.reader.Drained?
    case Receive(n) => InPhase(s, n, Waiting) && (s.channels[n].buffer.Some? || s.channels[n].closed)
    case FireTimeout(n) => InPhase(s, n, Waiting)
    case ForgetTimedOut(n) => InPhase(s, n, TimingOut) && !s.reader.Draining?
    case SeeClosed(n) => InPhase(s, n, Waiting) && s.reader.Ended?
  }

  function WithPhase(s: State, n: nat, p: Phase): State {
    s.(phases := s.phases[n := p])
  }

  function CloseChannel(s: State, n: nat): State
    requires n in s.channels
  {
    if s.channels[n].closed then s.(panicked := true)
    else s.(channels := s.channels[n := s.channels[n].(closed := true)])
  }

  function Do(s: State, a: Action): State
    requires Enabled(s, a)
  {
    match a
    case Begin =>
      var n := s.issued + 1;
      s.(issued := n, phases := s.phases[n := Begun], channels := s.channels[n := Channel(None, false)])
    case Register(n) => WithPhase(s, n, Registered).(pending := s.pending[IdOf(n) := n])
    case Write(n, ok) => WithPhase(s, n, if ok then Waiting else Done(WriteFailed))
    case ReadLine(key, body) =>
      var s1 := s.(lines := s.lines + 1);
      if key !in s.pending then s1
      else s1.(pending := s.pending - {key}, reader := Holding(s.pending[key], Message(s.lines, key, body)),
               routedTo := s.routedTo[s.lines := s.pending[key]])
    case SkipLine => s.(lines := s.lines + 1)
    case SendHeld =>
      var Holding(n, message) := s.reader;
      var s1 := s.(reader := Sent(n));
      if s.channels[n].closed then s1.(panicked := true)
      else if s.channels[n].buffer.Some? then s1
      else s1.(channels := s.channels[n := s.channels[n].(buffer := Some(message))])
    case CloseHeld => CloseChannel(s, s.reader.n).(reader := Reading)
    case EndOfStream => s.(reader := Draining)
    case DrainOne(key) => CloseChannel(s, s.pending[key]).(pending := s.pending - {key})
    case EndDrain => s.(reader := Drained)
    case MarkClosed => s.(reader := Ended)
    case Receive(n) =>
      var c := s.channels[n];
      if c.buffer.Some?
      then WithPhase(s, n, Done(Reply(c.buffer.value))).(channels := s.channels[n := c.(buffer := None)])
      else WithPhase(s, n, Done(WorkerExited))
    case FireTimeout(n) => WithPhase(s, n, TimingOut)
    case ForgetTimedOut(n) => WithPhase(s, n, Done(TimedOut)).(pending := s.pending - {IdOf(n)})
    case SeeClosed(n) => WithPhase(s, n, Done(WorkerExited))
  }

  ghost predicate Legal(s: State, run: seq<Action>)
    decreases run
  {
    run == [] || (Enabled(s, run[0]) && Legal(Do(s, run[0]), run[1..]))
  }

  function Exec(s: State, run: seq<Action>): State
    requires Legal(s, run)
    decreases run
  {
    if run == [] then s else Exec(Do(s, run[0]), run[1..])
  }

  const Spawned := State(0, map[], map[], map[], Reading, 0, map[], false)

  // ---- What every run keeps ----

  /** The message was taken for requester `n`, whose wire id it carries. */
  predicate RoutedHere(s: State, n: nat, message: Message) {
    message.line in s.routedTo && s.routedTo[message.line] == n && message.key == IdOf(n)
  }

  predicate InHand(s: State, n: nat) {
    (s.reader.Holding? || s.reader.Sent?) && s.reader.n == n
  }

  predicate IsPending(s: State, n: nat) {
    IdOf(n) in s.pending && s.pending[IdOf(n)] == n
  }

  /** What holds of one requester and its channel. */
  ghost predicate RequesterInv(s: State, n: nat) {
    && n in s.channels && n in s.phases
    && (s.phases[n].Begun? ==> !IsPending(s, n) && !InHand(s, n) && s.channels[n] == Channel(None, false))
    && (IsPending(s, n) ==> s.channels[n] == Channel(None, false) && !InHand(s, n))
    && (InHand(s, n) ==> !s.channels[n].closed)
    && (s.reader.Holding? && s.reader.n == n ==> s.channels[n].buffer == None && RoutedHere(s, n, s.reader.message))
    && (s.channels[n].buffer.Some? ==> RoutedHere(s, n, s.channels[n].buffer.value))
    && (s.phases[n].Done? && s.phases[n].outcome.Reply? ==> RoutedHere(s, n, s.phases[n].outcome.message))
    && (s.phases[n] == Done(TimedOut) ==> !IsPending(s, n))
  }

  ghost predicate TableInv(s: State) {
    && !s.panicked
    && (forall n :: n in s.phases <==> 1 <= n <= s.issued)
    && (forall n :: n in s.channels <==> 1 <= n <= s.issued)
    && (forall k :: k in s.pending ==> 1 <= s.pending[k] <= s.issued && k == IdOf(s.pending[k]))
    && (s.reader.Holding? || s.reader.Sent? ==> 1 <= s.reader.n <= s.issued)
    && (forall l :: l in s.routedTo ==> l < s.lines)
  }

  ghost predicate Inv(s: State) {
    TableInv(s) && forall n {:trigger RequesterInv(s, n)} :: 1 <= n <= s.issued ==> RequesterInv(s, n)
  }

  lemma TableInvKept(s: State, a: Action)
    requires Inv(s) && Enabled(s, a)
    ensures TableInv(Do(s, a))
  {
    if s.reader.Holding? || s.reader.Sent? {
      assert RequesterInv(s, s.reader.n);
    }
    if a.DrainOne? {
      assert RequesterInv(s, s.pending[a.key]);
    }
  }

  predicate ByReader(a: Action) {
    a.ReadLine? || a.SkipLine? || a.SendHeld? || a.CloseHeld? || a.EndOfStream? || a.DrainOne? || a.EndDrain? || a.MarkClosed?
  }

  lemma ReaderKeepsRequester(s: State, a: Action, n: nat)
    requires TableInv(s) && RequesterInv(s, n) && Enabled(s, a) && ByReader(a)
    ensures RequesterInv(Do(s, a), n)
  {
  }

  /** The two actions of requesters that change the pending map. */
  lemma PendingChangeKeepsRequester(s: State, a: Action, n: nat)
    requires TableInv(s) && RequesterInv(s, n) && Enabled(s, a) && (a.Register? || a.ForgetTimedOut?)
    ensures RequesterInv(Do(s, a), n)
  {
  }

  lemma RequesterKeepsRequester(s: State, a: Action, n: nat)
    requires TableInv(s) && RequesterInv(s, n) && Enabled(s, a) && n <= s.issued
    requires !ByReader(a) && !a.Register? && !a.ForgetTimedOut?
    ensures RequesterInv(Do(s, a), n)
  {
  }

  lemma NewRequester(s: State)
    requires TableInv(s)
    ensures RequesterInv(Do(s, Begin), s.issued + 1)
  {
  }

  lemma RequesterInvKept(s: State, a: Action, n: nat)
    requires Inv(s) && Enabled(s, a) && 1 <= n <= Do(s, a).issued
    ensures RequesterInv(Do(s, a), n)
  {
    hide TableInv, RequesterInv;
    if n > s.issued {
      NewRequester(s);
    } else if ByReader(a) {
      ReaderKeepsRequester(s, a, n);
    } else if a.Register? || a.ForgetTimedOut? {
      PendingChangeKeepsRequester(s, a, n);
    } else {
      RequesterKeepsRequester(s, a, n);
    }
  }

  lemma InvKept(s: State, a: Action)
    requires Inv(s) && Enabled(s, a)
    ensures Inv(Do(s, a))
  {
    hide Do, TableInv;
    TableInvKept(s, a);
    forall n | 1 <= n <= Do(s, a).issued ensures RequesterInv(Do(s, a), n) {
      RequesterInvKept(s, a, n);
    }
  }

  lemma {:induction false} RunKeepsInv(s: State, run: seq<Action>)
    requires Inv(s) && Legal(s, run)
    ensures Inv(Exec(s, run))
    decreases run
  {
    hide Inv, Do, Enabled;
    if run != [] {
      InvKept(s, run[0]);
      RunKeepsInv(Do(s, run[0]), run[1..]);
    }
  }

  /** Requester `n` returned a reply. */
  predicate Answered(s: State, n: nat) {
    n in s.phases && s.phases[n].Done? && s.phases[n].outcome.Reply?
  }

  function AnswerTo(s: State, n: nat): Message
    requires Answered(s, n)
  {
    s.phases[n].outcome.message
  }

  /** For every interleaving of requests, replies, timeouts, write failures and the end of the worker: no
      reply channel is written after it is closed or closed twice; a finished request holds a reply with
      its own wire id, or timed out, or saw the worker go, or could not be written; and no line of the
      worker is ever handed to two requesters. */
  lemma EveryRunIsSafe(run: seq<Action>)
    requires Legal(Spawned, run)
    ensures var s := Exec(Spawned, run);
            && !s.panicked
            && (forall n :: Answered(s, n) ==> AnswerTo(s, n).key == IdOf(n))
            && (forall m, n :: Answered(s, m) && Answered(s, n) && AnswerTo(s, m).line == AnswerTo(s, n).line ==> m == n)
  {
    RunKeepsInv(Spawned, run);
    var s := Exec(Spawned, run);
    forall n | Answered(s, n) ensures RoutedHere(s, n, AnswerTo(s, n)) {
      assert RequesterInv(s, n);
    }
  }

  /** Until the 64-bit counter wraps, a numbered line goes to the requester of that number or to nobody:
      to nobody once that requester has timed out, so a late reply reaches no one else. */
  lemma LateReplyIsDropped(s: State, key: nat, body: JsonMap)
    requires Inv(s) && s.issued < IdSpace && s.reader.Reading?
    ensures var s' := Do(s, ReadLine(key, body));
            && (s'.reader.Holding? ==> s'.reader.n == key && key in s.phases && !s.phases[key].Begun?)
            && (key in s.phases && s.phases[key] == Done(TimedOut) ==> s' == s.(lines := s.lines + 1))
            && (key in s.pending <==> s'.reader.Holding?)
  {
    if key in s.pending {
      var n := s.pending[key];
      assert key == IdOf(n) == n;
      assert RequesterInv(s, n);
    }
  }

  /** A worker that echoes ids exactly still answers the wrong request once ids outgrow the doubles: the
      reply to the first inexact id is handed to the requester before it. */
  lemma InexactEchoIsMisrouted(s: State, body: JsonMap)
    requires s.reader.Reading? && ExactBelow in s.pending && s.pending[ExactBelow] == ExactBelow
    requires ExactBelow + 1 in s.pending && s.pending[ExactBelow + 1] == ExactBelow + 1
    ensures var s' := Do(s, ReadLine(Nearest(ExactBelow + 1), body));
            s'.reader.Holding? && s'.reader.n == ExactBelow && ExactBelow + 1 in s'.pending
  {
    FirstInexactEcho();
  }

  // ---- Nobody is forgotten ----

  /** Some line was taken for requester `n`. */
  ghost predicate IsRouted(s: State, n: nat) {
    exists l :: l in s.routedTo && s.routedTo[l] == n
  }

  /** Waiting for its reply, or about to. */
  predicate Expects(s: State, n: nat) {
    n in s.phases && (s.phases[n].Registered? || s.phases[n].Waiting?)
  }

  /** Who expects a reply is still pending, or in the read loop's hand, or has a closed channel to receive from;
      and once a line was taken for it and has left the read loop's hand, that line is in its channel. */
  ghost predicate ServedInv(s: State, n: nat) {
    && n in s.channels && n in s.phases
    && (Expects(s, n) ==> IsPending(s, n) || InHand(s, n) || s.channels[n].closed)
    && (Expects(s, n) && IsRouted(s, n) && !(s.reader.Holding? && s.reader.n == n) ==> s.channels[n].buffer.Some?)
    && (s.phases[n].Begun? || IsPending(s, n) ==> !IsRouted(s, n))
  }

  ghost predicate AllServed(s: State) {
    && (forall l :: l in s.routedTo ==> 1 <= s.routedTo[l] <= s.issued)
    && forall n {:trigger ServedInv(s, n)} :: 1 <= n <= s.issued ==> ServedInv(s, n)
  }

  /** The table of lines after a step. */
  lemma RoutedAfter(s: State, a: Action)
    requires TableInv(s) && Enabled(s, a)
    ensures var s' := Do(s, a);
            forall n :: IsRouted(s', n) <==> IsRouted(s, n) || (a.ReadLine? && a.key in s.pending && s.pending[a.key] == n)
  {
    var s' := Do(s, a);
    if a.ReadLine? && a.key in s.pending {
      assert s'.routedTo[s.lines] == s.pending[a.key];
      forall n ensures IsRouted(s', n) <==> IsRouted(s, n) || s.pending[a.key] == n {
        if IsRouted(s, n) {
          var l :| l in s.routedTo && s.routedTo[l] == n;
          assert l in s'.routedTo && s'.routedTo[l] == n;
        }
      }
    } else {
      assert s'.routedTo == s.routedTo;
    }
  }

  lemma ReaderServes(s: State, a: Action, n: nat)
    requires TableInv(s) && RequesterInv(s, n) && ServedInv(s, n) && Enabled(s, a) && 1 <= n <= s.issued < IdSpace && ByReader(a)
    ensures ServedInv(Do(s, a), n)
  {
    RoutedAfter(s, a);
    hide IsRouted;
  }

  lemma OwnId(n: nat)
    requires n < IdSpace
    ensures IdOf(n) == n
  {
  }

  lemma RegisterServes(s: State, m: nat, n: nat)
    requires TableInv(s) && RequesterInv(s, n) && ServedInv(s, n) && Enabled(s, Register(m)) && 1 <= n <= s.issued < IdSpace
    ensures ServedInv(Do(s, Register(m)), n)
  {
    RoutedAfter(s, Register(m));
    OwnId(n);
    OwnId(m);
    hide IsRouted, IdOf;
  }

  lemma ForgetServes(s: State, m: nat, n: nat)
    requires TableInv(s) && RequesterInv(s, n) && ServedInv(s, n) && Enabled(s, ForgetTimedOut(m)) && 1 <= n <= s.issued < IdSpace
    ensures ServedInv(Do(s, ForgetTimedOut(m)), n)
  {
    RoutedAfter(s, ForgetTimedOut(m));
    OwnId(n);
    OwnId(m);
    hide IsRouted, IdOf;
  }

  lemma RequesterServes(s: State, a: Action, n: nat)
    requires TableInv(s) && RequesterInv(s, n) && ServedInv(s, n) && Enabled(s, a) && 1 <= n <= s.issued < IdSpace
    requires !ByReader(a) && !a.Register? && !a.ForgetTimedOut?
    ensures ServedInv(Do(s, a), n)
  {
    RoutedAfter(s, a);
    hide IsRouted;
  }

  lemma ServedKept(s: State, a: Action, n: nat)
    requires TableInv(s) && RequesterInv(s, n) && ServedInv(s, n) && Enabled(s, a) && 1 <= n <= s.issued < IdSpace
    ensures ServedInv(Do(s, a), n)
  {
    hide TableInv, RequesterInv, ServedInv, Do, Enabled;
    if ByReader(a) {
      ReaderServes(s, a, n);
    } else if a.Register? {
      RegisterServes(s, a.n, n);
    } else if a.ForgetTimedOut? {
      ForgetServes(s, a.n, n);
    } else {
      RequesterServes(s, a, n);
    }
  }

  lemma NewServed(s: State)
    requires TableInv(s) && AllServed(s)
    ensures ServedInv(Do(s, Begin), s.issued + 1)
  {
    RoutedAfter(s, Begin);
    assert !IsRouted(s, s.issued + 1);
    hide IsRouted;
  }

  lemma AllServedKept(s: State, a: Action)
    requires Inv(s) && AllServed(s) && Enabled(s, a) && s.issued < IdSpace
    ensures AllServed(Do(s, a))
  {
    var s' := Do(s, a);
    forall n | 1 <= n <= s'.issued ensures ServedInv(s', n) {
      if n > s.issued {
        NewServed(s);
      } else {
        assert RequesterInv(s, n) && ServedInv(s, n);
        ServedKept(s, a, n);
      }
    }
    LinesStayKnown(s, a);
  }

  lemma LinesStayKnown(s: State, a: Action)
    requires TableInv(s) && (forall l :: l in s.routedTo ==> 1 <= s.routedTo[l] <= s.issued) && Enabled(s, a)
    ensures forall l :: l in Do(s, a).routedTo ==> 1 <= Do(s, a).routedTo[l] <= Do(s, a).issued
  {
  }

  lemma {:induction false} RunServes(s: State, run: seq<Action>)
    requires Inv(s) && AllServed(s) && Legal(s, run) && Exec(s, run).issued < IdSpace
    ensures AllServed(Exec(s, run))
    decreases run
  {
    hide Inv, AllServed, Do, Enabled;
    if run != [] {
      IssuedGrows(Do(s, run[0]), run[1..]);
      IssuedStep(s, run[0]);
      InvKept(s, run[0]);
      AllServedKept(s, run[0]);
      RunServes(Do(s, run[0]), run[1..]);
    }
  }

  lemma IssuedStep(s: State, a: Action)
    requires Enabled(s, a)
    ensures s.issued <= Do(s, a).issued
  {
  }

  lemma {:induction false} IssuedGrows(s: State, run: seq<Action>)
    requires Legal(s, run)
    ensures s.issued <= Exec(s, run).issued
    decreases run
  {
    hide Do, Enabled;
    if run != [] {
      IssuedStep(s, run[0]);
      IssuedGrows(Do(s, run[0]), run[1..]);
    }
  }

  /** In every run until the counter wraps, a requester that waits is pending, or has its line in the read loop's
      hand, or can receive; what it can then receive is its line, if one was taken for it, and otherwise that
      the worker is gone. */
  lemma NobodyIsForgotten(run: seq<Action>, n: nat)
    requires Legal(Spawned, run) && Exec(Spawned, run).issued < IdSpace
    requires n in Exec(Spawned, run).phases && Exec(Spawned, run).phases[n].Waiting?
    ensures var s := Exec(Spawned, run);
            && n in s.channels
            && (IsPending(s, n) || InHand(s, n) || Enabled(s, Receive(n)))
            && (Enabled(s, Receive(n)) && !InHand(s, n) ==>
                  && n in Do(s, Receive(n)).phases && Do(s, Receive(n)).phases[n].Done?
                  && var outcome := Do(s, Receive(n)).phases[n].outcome;
                     if IsRouted(s, n) then outcome.Reply? && outcome.message.key == IdOf(n) else outcome == WorkerExited)
  {
    RunKeepsInv(Spawned, run);
    RunServes(Spawned, run);
    var s := Exec(Spawned, run);
    assert RequesterInv(s, n) && ServedInv(s, n);
    if s.channels[n].buffer.Some? {
      assert s.routedTo[s.channels[n].buffer.value.line] == n;
    }
  }

  // ---- The read loop by itself ----

  /** A line of the worker's output, as far as the read loop looks at it. */
  datatype Line = Numbered(key: nat, body: JsonMap) | Other

  /** One line from end to end, when nothing interferes: a pending requester's channel leaves the map,
      gets the message and is closed. */
  function Dispatched(s: State, line: Line): State {
    var s1 := s.(lines := s.lines + 1);
    if line.Other? || line.key !in s.pending || s.pending[line.key] !in s.channels then s1
    else
      var n := s.pending[line.key];
      s1.(pending := s.pending - {line.key},
          routedTo := s.routedTo[s.lines := n],
          channels := s.channels[n := Channel(Some(Message(s.lines, line.key, line.body)), true)])
  }

  function AfterLines(s: State, lines: seq<Line>): State
    decreases lines
  {
    if lines == [] then s else AfterLines(Dispatched(s, lines[0]), lines[1..])
  }

  /** Closes every channel that is still pending. */
  function AllClosed(s: State): State {
    s.(pending := map[],
       channels := map n | n in s.channels :: if n in s.pending.Values then s.channels[n].(closed := true) else s.channels[n])
  }

  lemma {:induction false} RunConcat(s: State, first: seq<Action>, second: seq<Action>)
    requires Legal(s, first) && Legal(Exec(s, first), second)
    ensures Legal(s, first + second) && Exec(s, first + second) == Exec(Exec(s, first), second)
    decreases first
  {
    hide Do, Enabled;
    if first == [] {
      assert first + second == second;
    } else {
      RunConcat(Do(s, first[0]), first[1..], second);
      assert (first + second)[1..] == first[1..] + second;
    }
  }

  lemma OneStep(s: State, a: Action)
    requires Enabled(s, a)
    ensures Legal(s, [a]) && Exec(s, [a]) == Do(s, a)
  {
    hide Do, Enabled;
    assert [a][1..] == [];
  }

  lemma DispatchRun(s: State, line: Line) returns (run: seq<Action>)
    requires Inv(s) && s.reader.Reading?
    ensures Legal(s, run) && Exec(s, run) == Dispatched(s, line)
  {
    if line.Other? {
      OneStep(s, SkipLine);
      run := [SkipLine];
    } else {
      var a := ReadLine(line.key, line.body);
      OneStep(s, a);
      run := [a];
      if line.key in s.pending {
        assert RequesterInv(s, s.pending[line.key]);
        var s1 := Do(s, a);
        OneStep(s1, SendHeld);
        var s2 := Do(s1, SendHeld);
        OneStep(s2, CloseHeld);
        RunConcat(s1, [SendHeld], [CloseHeld]);
        RunConcat(s, [a], [SendHeld] + [CloseHeld]);
        run := [a] + ([SendHeld] + [CloseHeld]);
      }
    }
  }

  /** A reply that is read while its requester waits is there for it to receive. */
  lemma OwnReplyArrives(s: State, n: nat, body: JsonMap) returns (run: seq<Action>)
    requires Inv(s) && s.reader.Reading? && n in s.phases && s.phases[n].Waiting? && IsPending(s, n)
    ensures Legal(s, run) && Answered(Exec(s, run), n) && AnswerTo(Exec(s, run), n).body == body
  {
    assert RequesterInv(s, n);
    var dispatch := DispatchRun(s, Numbered(IdOf(n), body));
    var s1 := Dispatched(s, Numbered(IdOf(n), body));
    OneStep(s1, Receive(n));
    RunConcat(s, dispatch, [Receive(n)]);
    run := dispatch + [Receive(n)];
  }

  /** The drain in any order of the map. */
  lemma {:induction false} DrainRun(s: State) returns (run: seq<Action>)
    requires Inv(s) && s.reader.Draining?
    ensures Legal(s, run) && Exec(s, run) == AllClosed(s)
    decreases s.pending.Keys
  {
    if s.pending == map[] {
      run := [];
      assert AllClosed(s) == s;
    } else {
      var key :| key in s.pending;
      var a := DrainOne(key);
      InvKept(s, a);
      DrainedOne(s, key);
      OneStep(s, a);
      var rest := DrainRun(Do(s, a));
      RunConcat(s, [a], rest);
      run := [a] + rest;
    }
  }

  lemma ValuesOfRest(m: map<nat, nat>, key: nat)
    requires key in m
    ensures m.Values == (m - {key}).Values + {m[key]}
  {
    forall v ensures v in m.Values <==> v in (m - {key}).Values + {m[key]} {
      if v in m.Values {
        var k :| k in m && m[k] == v;
        assert k == key || (k in m - {key} && (m - {key})[k] == v);
      }
      if v in (m - {key}).Values {
        var k :| k in m - {key} && (m - {key})[k] == v;
        assert k in m && m[k] == v;
      }
    }
  }

  lemma DrainedOne(s: State, key: nat)
    requires Inv(s) && s.reader.Draining? && key in s.pending
    ensures Enabled(s, DrainOne(key))
    ensures var s' := Do(s, DrainOne(key));
            s'.reader == s.reader && s'.pending == s.pending - {key} && AllClosed(s') == AllClosed(s)
  {
    var n := s.pending[key];
    assert RequesterInv(s, n);
    var s' := Do(s, DrainOne(key));
    ValuesOfRest(s.pending, key);
  }

  lemma {:induction false} LinesRun(s: State, lines: seq<Line>) returns (run: seq<Action>)
    requires Inv(s) && s.reader.Reading?
    ensures Legal(s, run) && Exec(s, run) == AfterLines(s, lines) && AfterLines(s, lines).reader.Reading?
    decreases lines
  {
    hide Do, Enabled, Inv;
    if lines == [] {
      run := [];
    } else {
      var first := DispatchRun(s, lines[0]);
      RunKeepsInv(s, first);
      var rest := LinesRun(Dispatched(s, lines[0]), lines[1..]);
      RunConcat(s, first, rest);
      run := first + rest;
    }
  }

  /** A read loop that nobody disturbs is one of the protocol's runs. */
  lemma SoloReadLoopIsARun(s: State, lines: seq<Line>) returns (run: seq<Action>)
    requires Inv(s) && s.reader.Reading?
    ensures Legal(s, run) && Exec(s, run) == AllClosed(AfterLines(s, lines)).(reader := Ended)
  {
    hide Inv, AllClosed;
    run := LinesRun(s, lines);
    var s1 := AfterLines(s, lines);
    RunKeepsInv(s, run);
    InvKept(s1, EndOfStream);
    OneStep(s1, EndOfStream);
    RunConcat(s, run, [EndOfStream]);
    var s2 := Do(s1, EndOfStream);
    var drain := DrainRun(s2);
    RunConcat(s, run + [EndOfStream], drain);
    var s3 := AllClosed(s2);
    AllClosedShape(s1);
    OneStep(s3, EndDrain);
    RunConcat(s, run + [EndOfStream] + drain, [EndDrain]);
    var s4 := Do(s3, EndDrain);
    OneStep(s4, MarkClosed);
    RunConcat(s, run + [EndOfStream] + drain + [EndDrain], [MarkClosed]);
    run := run + [EndOfStream] + drain + [EndDrain] + [MarkClosed];
  }

  lemma AllClosedShape(s: State)
    ensures AllClosed(s.(reader := Draining)).reader == Draining && AllClosed(s.(reader := Draining)).pending == map[]
    ensures AllClosed(s.(reader := Draining)).(reader := Ended) == AllClosed(s).(reader := Ended)
  {
  }

  lemma PendingHaveChannels(s: State)
    requires Inv(s)
    ensures forall k :: k in s.pending ==> s.pending[k] in s.channels
  {
  }

  class StdioWorker {
    var nextReqID: nat
    var pending: map<nat, nat>
    var channels: map<nat, Channel>
    var closed: bool
    var lines: nat
    ghost var phases: map<nat, Phase>
    ghost var routedTo: map<nat, nat>

    ghost function Snapshot(): State
      reads this
    {
      State(nextReqID, phases, channels, pending, if closed then Ended else Reading, lines, routedTo, false)
    }

    constructor ()
      ensures Snapshot() == Spawned
    {
      nextReqID, pending, channels, closed := 0, map[], map[], false;
      phases, lines, routedTo := map[], 0, map[];
    }

    /** The start of RequestWithTimeout: a fresh id and a pending channel. */
    method Request() returns (n: nat)
      modifies this
      ensures n == old(nextReqID) + 1
      ensures Snapshot() == Do(Do(old(Snapshot()), Begin), Register(n))
    {
      n := nextReqID + 1;
      nextReqID := n;
      channels := channels[n := Channel(None, false)];
      pending := pending[IdOf(n) := n];
      phases := phases[n := Registered];
    }

    /** The timeout branch. */
    method Forget(n: nat)
      requires n in phases && n in channels && phases[n].Waiting?
      modifies this
      ensures Snapshot() == Do(Do(old(Snapshot()), FireTimeout(n)), ForgetTimedOut(n))
    {
      pending := pending - {IdOf(n)};
      phases := phases[n := Done(TimedOut)];
    }

    /** Takes the channel out of the map, fills it and closes it. */
    method Dispatch(line: Line)
      requires Inv(Snapshot()) && !closed
      modifies this`lines, this`pending, this`channels, this`routedTo
      ensures Snapshot() == Dispatched(old(Snapshot()), line)
    {
      var at := lines;
      assert line.Numbered? && line.key in pending ==> RequesterInv(Snapshot(), pending[line.key]);
      lines := lines + 1;
      if line.Numbered? && line.key in pending {
        var n := pending[line.key];
        pending := pending - {line.key};
        routedTo := routedTo[at := n];
        channels := channels[n := Channel(Some(Message(at, line.key, line.body)), true)];
      }
    }
  
    /** The whole read loop over the lines that the worker writes, and its deferred clean-up. */
    method ReadLoop(input: seq<Line>)
      requires Inv(Snapshot()) && !closed
      modifies this
      ensures Snapshot() == AllClosed(AfterLines(old(Snapshot()), input)).(reader := Ended)
    {
      hide Inv, Dispatched;
      var i := 0;
      while i < |input|
        invariant 0 <= i <= |input|
        invariant Inv(Snapshot()) && !closed
        invariant AfterLines(Snapshot(), input[i..]) == AfterLines(old(Snapshot()), input)
      {
        assert input[i..][1..] == input[i + 1..];
        ghost var run := DispatchRun(Snapshot(), input[i]);
        RunKeepsInv(Snapshot(), run);
        Dispatch(input[i]);
        i := i + 1;
      }
      assert Snapshot() == AfterLines(old(Snapshot()), input);
      PendingHaveChannels(Snapshot());
      ghost var before := Snapshot();
      CloseAllPending();
      assert Snapshot() == AllClosed(before);
      closed := true;
    }

    method CloseAllPending()
      requires forall k :: k in pending ==> pending[k] in channels
      modifies this`pending, this`channels
      ensures Snapshot() == AllClosed(old(Snapshot()))
    {
      while pending != map[]
        invariant forall k :: k in pending ==> pending[k] in channels
        invariant AllClosed(Snapshot()) == AllClosed(old(Snapshot()))
        decreases pending.Keys
      {
        var key :| key in pending;
        var n := pending[key];
        ghost var before := pending;
        pending := pending - {key};
        channels := channels[n := channels[n].(closed := true)];
        ValuesOfRest(before, key);
      }
    }
  }
}
