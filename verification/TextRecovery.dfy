/** The last assistant message of a replayed session, picked out of a stream of chunks. */
module TextRecovery {
  import opened TaskTypes

  // ---- strings.TrimSpace ----

  /** unicode.IsSpace. */
  predicate IsSpace(c: char) {
    || '\U{9}' <= c <= '\U{D}' || c == ' ' || c == '\U{85}' || c == '\U{A0}' || c == '\U{1680}'
    || '\U{2000}' <= c <= '\U{200A}' || c == '\U{2028}' || c == '\U{2029}' || c == '\U{202F}'
    || c == '\U{205F}' || c == '\U{3000}'
  }

  function TrimLeft(s: string): string
    decreases s
  {
    if s != [] && IsSpace(s[0]) then TrimLeft(s[1..]) else s
  }

  function TrimRight(s: string): string
    decreases s
  {
    if s != [] && IsSpace(s[|s| - 1]) then TrimRight(s[..|s| - 1]) else s
  }

  function Trim(s: string): string {
    TrimRight(TrimLeft(s))
  }

  predicate Blank(s: string) {
    forall c :: c in s ==> IsSpace(c)
  }

  lemma {:induction false} TrimLeftIs(s: string) returns (k: nat)
    ensures k <= |s| && TrimLeft(s) == s[k..] && Blank(s[..k]) && (k < |s| ==> !IsSpace(s[k]))
    decreases s
  {
    hide IsSpace;
    if s != [] && IsSpace(s[0]) {
      k := TrimLeftIs(s[1..]);
      assert s[1..][k..] == s[k + 1..];
      assert s[..k + 1] == [s[0]] + s[1..][..k];
      k := k + 1;
    } else {
      k := 0;
    }
  }

  lemma {:induction false} TrimRightIs(s: string) returns (k: nat)
    ensures k <= |s| && TrimRight(s) == s[..k] && Blank(s[k..]) && (k > 0 ==> !IsSpace(s[k - 1]))
    decreases s
  {
    hide IsSpace;
    if s != [] && IsSpace(s[|s| - 1]) {
      var t := s[..|s| - 1];
      k := TrimRightIs(t);
      assert t[..k] == s[..k];
      assert s[k..] == t[k..] + [s[|s| - 1]];
    } else {
      k := |s|;
      assert s[..k] == s;
    }
  }

  /** Trimming removes blanks at both ends and nothing else. */
  lemma TrimIs(s: string) returns (i: nat, j: nat)
    ensures i <= j <= |s| && Trim(s) == s[i..j] && Blank(s[..i]) && Blank(s[j..])
    ensures i < j ==> !IsSpace(s[i]) && !IsSpace(s[j - 1])
  {
    hide IsSpace, Blank;
    i := TrimLeftIs(s);
    var k := TrimRightIs(s[i..]);
    j := i + k;
    assert s[i..][..k] == s[i..j] && s[i..][k..] == s[j..];
  }

  lemma BlankTrims(s: string)
    ensures Trim(s) == "" <==> Blank(s)
  {
    hide IsSpace, Trim;
    var i, j := TrimIs(s);
    if i == j {
      assert s == s[..i] + s[j..];
    } else {
      assert s[i] in s;
    }
  }

  /** Trimming again changes nothing. */
  lemma TrimTwice(s: string)
    ensures Trim(Trim(s)) == Trim(s)
  {
    hide IsSpace;
    var i, j := TrimIs(s);
  }

  // ---- What the replay means ----

  datatype Role = User | Assistant

  datatype Chunk = Chunk(role: Role, text: string)

  function Join(chunks: seq<Chunk>): string
    decreases chunks
  {
    if chunks == [] then "" else chunks[0].text + Join(chunks[1..])
  }

  /** The length of the longest beginning in which everyone has the same role. */
  function RunLength(chunks: seq<Chunk>): (n: nat)
    requires chunks != []
    ensures 1 <= n <= |chunks|
    ensures forall i :: 0 <= i < n ==> chunks[i].role == chunks[0].role
    ensures n < |chunks| ==> chunks[n].role != chunks[0].role
    decreases chunks
  {
    if |chunks| == 1 || chunks[1].role != chunks[0].role then 1 else
      var n := RunLength(chunks[1..]);
      assert forall i :: 0 <= i < n + 1 ==> chunks[i].role == if i == 0 then chunks[0].role else chunks[1..][i - 1].role;
      1 + n
  }

  /** The chunks as maximal same-role runs, each as one message. */
  function Messages(chunks: seq<Chunk>): seq<Chunk>
    decreases |chunks|
  {
    if chunks == [] then []
    else
      var n := RunLength(chunks);
      [Chunk(chunks[0].role, Join(chunks[..n]))] + Messages(chunks[n..])
  }

  predicate Speaks(message: Chunk) {
    message.role == Assistant && !Blank(message.text)
  }

  /** The last assistant message that says something, trimmed, or `before` when there is none. */
  function LastAnswer(before: string, messages: seq<Chunk>): string {
    if messages == [] then before
    else if Speaks(messages[|messages| - 1]) then Trim(messages[|messages| - 1].text)
    else LastAnswer(before, messages[..|messages| - 1])
  }

  // ---- The streaming automaton ----

  datatype Automaton = Automaton(role: Option<Role>, text: string, lastAssistant: string)

  const Start := Automaton(None, "", "")

  function Flush(a: Automaton): Automaton {
    Automaton(None, "", if a.role == Some(Assistant) && Trim(a.text) != "" then Trim(a.text) else a.lastAssistant)
  }

  function Feed1(a: Automaton, c: Chunk): Automaton {
    var b := if a.role == Some(c.role) then a else Flush(a).(role := Some(c.role));
    b.(text := b.text + c.text)
  }

  function Feed(a: Automaton, chunks: seq<Chunk>): Automaton
    decreases chunks
  {
    if chunks == [] then a else Feed(Feed1(a, chunks[0]), chunks[1..])
  }

  /** What the automaton would return if the stream ended here. */
  function Answer(a: Automaton): string {
    Flush(a).lastAssistant
  }

  lemma {:induction false} FeedSameRole(a: Automaton, chunks: seq<Chunk>)
    requires forall i :: 0 <= i < |chunks| ==> a.role == Some(chunks[i].role)
    ensures Feed(a, chunks) == a.(text := a.text + Join(chunks))
    decreases chunks
  {
    if chunks == [] {
      assert a.text + "" == a.text;
    } else {
      assert a.role == Some(chunks[0].role);
      var b := Feed1(a, chunks[0]);
      assert forall i :: 0 <= i < |chunks[1..]| ==> chunks[1..][i] == chunks[i + 1];
      FeedSameRole(b, chunks[1..]);
      assert (a.text + chunks[0].text) + Join(chunks[1..]) == a.text + (chunks[0].text + Join(chunks[1..]));
    }
  }

  lemma {:induction false} FeedConcat(a: Automaton, first: seq<Chunk>, second: seq<Chunk>)
    ensures Feed(a, first + second) == Feed(Feed(a, first), second)
    decreases first
  {
    if first == [] {
      assert first + second == second;
    } else {
      assert (first + second)[1..] == first[1..] + second;
      FeedConcat(Feed1(a, first[0]), first[1..], second);
    }
  }

  lemma {:induction false} LastAnswerPrepend(before: string, m: Chunk, messages: seq<Chunk>)
    ensures LastAnswer(before, [m] + messages) == LastAnswer(if Speaks(m) then Trim(m.text) else before, messages)
  {
    var all := [m] + messages;
    if messages == [] {
      assert all == [m] && all[..0] == [];
    } else {
      assert all[..|all| - 1] == [m] + messages[..|messages| - 1];
      LastAnswerPrepend(before, m, messages[..|messages| - 1]);
    }
  }

  /** One maximal run, fed to an automaton that was in another role. */
  lemma FeedRun(a: Automaton, chunks: seq<Chunk>)
    requires chunks != [] && a.role != Some(chunks[0].role) && forall i :: 0 <= i < |chunks| ==> chunks[i].role == chunks[0].role
    ensures Feed(a, chunks) == Automaton(Some(chunks[0].role), Join(chunks), Flush(a).lastAssistant)
  {
    var b := Feed1(a, chunks[0]);
    assert b == Automaton(Some(chunks[0].role), chunks[0].text, Flush(a).lastAssistant);
    assert forall i :: 0 <= i < |chunks[1..]| ==> chunks[1..][i] == chunks[i + 1];
    FeedSameRole(b, chunks[1..]);
  }

  lemma {:induction false} AutomatonFollowsRuns(a: Automaton, chunks: seq<Chunk>)
    requires chunks == [] || a.role != Some(chunks[0].role)
    ensures Answer(Feed(a, chunks)) == LastAnswer(Answer(a), Messages(chunks))
    decreases |chunks|
  {
    if chunks != [] {
      var n := RunLength(chunks);
      var run, rest := chunks[..n], chunks[n..];
      assert chunks == run + rest;
      FeedRun(a, run);
      FeedConcat(a, run, rest);
      AutomatonFollowsRuns(Feed(a, run), rest);
      BlankTrims(Join(run));
      LastAnswerPrepend(Answer(a), Chunk(chunks[0].role, Join(run)), Messages(rest));
    }
  }

  /** The streaming automaton returns what the replay means: the trimmed text of the last maximal run of
      assistant chunks that is not blank, and "" when there is none. */
  lemma RecoveryIsLastAnswer(chunks: seq<Chunk>)
    ensures Answer(Feed(Start, chunks)) == LastAnswer("", Messages(chunks))
  {
    AutomatonFollowsRuns(Start, chunks);
  }

  // ---- The loop ----

  /** What the loop's select sees. `LoadReturned` can come again and again: its channel stays closed. */
  datatype Signal = Update(params: JsonMap) | LoadReturned(ok: bool) | TimerFires | ContextDone | StreamClosed

  function ObjectAt(m: JsonMap, key: string): Option<JsonMap> {
    if key in m && m[key].JObj? then Some(m[key].fields) else None
  }

  function SessionOf(params: JsonMap): string {
    var sid := StringAt(params, "sessionId");
    if sid == "" then StringAt(params, "session_id") else sid
  }

  /** The chunk that an update carries for this session, if any. */
  function ChunkOf(params: JsonMap, sessionId: string): Option<Chunk> {
    if SessionOf(params) != sessionId then None
    else
      var update := ObjectAt(params, "update");
      if update == None then None
      else
        var content := ObjectAt(update.value, "content");
        var text := if content == None then "" else StringAt(content.value, "text");
        var kind := StringAt(update.value, "sessionUpdate");
        if kind == "user_message_chunk" then Some(Chunk(User, text))
        else if kind == "agent_message_chunk" then Some(Chunk(Assistant, text))
        else None
  }

  /** The signal ends the loop. */
  predicate Ends(s: Signal) {
    !s.Update? && s != LoadReturned(true)
  }

  /** The chunks that arrive before the loop ends. */
  function Heard(signals: seq<Signal>, sessionId: string): seq<Chunk>
    decreases signals
  {
    if signals == [] || Ends(signals[0]) then []
    else
      var chunk := if signals[0].Update? then ChunkOf(signals[0].params, sessionId) else None;
      (if chunk.Some? then [chunk.value] else []) + Heard(signals[1..], sessionId)
  }

  /** The loop goes on past this signal. */
  predicate GoesOn(s: Signal) {
    s.Update? || s == LoadReturned(true)
  }

  /** What is heard, signal by signal: over a stretch that ends nothing it adds up in order; an update adds its
      chunk, if it carries one of the session, and a finished load nothing; and from the first other signal
      on nothing is heard. */
  lemma {:induction false} HeardAddsUp(a: seq<Signal>, b: seq<Signal>, sessionId: string)
    requires forall s :: s in a ==> GoesOn(s)
    ensures Heard(a + b, sessionId) == Heard(a, sessionId) + Heard(b, sessionId)
    ensures b != [] && !GoesOn(b[0]) ==> Heard(a + b, sessionId) == Heard(a, sessionId)
    ensures forall s :: a == [s] && s.Update? && ChunkOf(s.params, sessionId).Some?
              ==> Heard(a, sessionId) == [ChunkOf(s.params, sessionId).value]
    ensures forall s :: a == [s] && !(s.Update? && ChunkOf(s.params, sessionId).Some?) ==> Heard(a, sessionId) == []
    decreases a
  {
    hide ChunkOf;
    if a == [] {
      assert a + b == b;
    } else {
      assert (a + b)[1..] == a[1..] + b && a[0] in a;
      assert Heard([], sessionId) == [];
      HeardAddsUp(a[1..], b, sessionId);
      assert |a| == 1 ==> a[1..] == [];
    }
  }

  /** What a chunk is: an update of the session that says who speaks, with the text of its content, if any. */
  lemma ChunkSays(params: JsonMap, sessionId: string)
    requires "update" in params && params["update"].JObj?
    ensures var update, c := params["update"].fields, ChunkOf(params, sessionId);
            var kind := if "sessionUpdate" in update then update["sessionUpdate"] else JNull;
            var own := "sessionId" in params && params["sessionId"].JStr? && params["sessionId"].text == sessionId && sessionId != "";
            && (own && kind == JStr("user_message_chunk") ==> c.Some? && c.value.role == User)
            && (own && kind == JStr("agent_message_chunk") ==> c.Some? && c.value.role == Assistant)
            && (kind != JStr("user_message_chunk") && kind != JStr("agent_message_chunk") ==> c == None)
            && ("sessionId" in params && params["sessionId"].JStr? && params["sessionId"].text !in {"", sessionId} ==> c == None)
            && (c.Some? && "content" in update && update["content"].JObj?
                && "text" in update["content"].fields && update["content"].fields["text"].JStr?
                ==> c.value.text == update["content"].fields["text"].text)
  {
  }

  method RecoverAssistantTextFromSessionLoad(signals: seq<Signal>, sessionId: string) returns (answer: string)
    ensures answer == if sessionId == "" then "" else LastAnswer("", Messages(Heard(signals, sessionId)))
  {
    if sessionId == "" {
      return "";
    }
    var currentRole: Option<Role>, currentText, lastAssistant := None, "", "";
    ghost var all := Heard(signals, sessionId);
    RecoveryIsLastAnswer(all);
    var i := 0;
    while i < |signals| && !Ends(signals[i])
      invariant 0 <= i <= |signals|
      invariant Feed(Automaton(currentRole, currentText, lastAssistant), Heard(signals[i..], sessionId)) == Feed(Start, all)
    {
      assert signals[i..][1..] == signals[i + 1..];
      ghost var rest := Heard(signals[i + 1..], sessionId);
      if signals[i].Update? {
        var chunk := ChunkOf(signals[i].params, sessionId);
        if chunk.Some? {
          assert ([chunk.value] + rest)[1..] == rest;
          if currentRole != Some(chunk.value.role) {
            if currentRole == Some(Assistant) && Trim(currentText) != "" {
              lastAssistant := Trim(currentText);
            }
            currentRole, currentText := Some(chunk.value.role), "";
          }
          currentText := currentText + chunk.value.text;
        } else {
          assert [] + rest == rest;
        }
      } else {
        assert [] + rest == rest;
      }
      i := i + 1;
    }
    if currentRole == Some(Assistant) && Trim(currentText) != "" {
      lastAssistant := Trim(currentText);
    }
    return lastAssistant;
  }
}
