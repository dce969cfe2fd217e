/** Which worker process an adapter call reaches: every call reads a subcontext key from options,
    and the runtime manager looks workers up by target and subcontext. */
module WorkerKeys {
  import opened TaskTypes
  import opened Options

  datatype Dialect = Hermes | OpenClaw | Goose

  function OrDefault(text: string, default: string): string {
    if text == "" then default else text
  }

  /** The option that names the scope of a dialect's workers. */
  function ScopeOption(dialect: Dialect): string {
    match dialect
    case Hermes => "executor"
    case OpenClaw => "session_key"
    case Goose => "profile"
  }

  function ScopeName(dialect: Dialect, options: Json): string
    requires options.JObj?
  {
    var given := StringAt(options.fields, ScopeOption(dialect));
    match dialect
    case Hermes => OrDefault(given, "aethrolink-agent")
    case OpenClaw => OrDefault(given, "main")
    case Goose => OrDefault(given, "default")
  }

  function Prefix(dialect: Dialect): string {
    match dialect case Hermes => "executor:" case OpenClaw => "session:" case Goose => "profile:"
  }

  function SubcontextKey(dialect: Dialect, options: Json): string
    requires options.JObj?
  {
    Prefix(dialect) + ScopeName(dialect, options)
  }

  /** The subcontext keys on the wire: Hermes is keyed by its executor, OpenClaw by its session key, Goose by its
      profile, each with a name of its own when the option is missing, empty or no string. */
  lemma KeysSay(options: Json)
    requires options.JObj?
    ensures var f := options.fields;
            && (forall x :: x != "" && "executor" in f && f["executor"] == JStr(x) ==> SubcontextKey(Hermes, options) == "executor:" + x)
            && (forall x :: x != "" && "session_key" in f && f["session_key"] == JStr(x) ==> SubcontextKey(OpenClaw, options) == "session:" + x)
            && (forall x :: x != "" && "profile" in f && f["profile"] == JStr(x) ==> SubcontextKey(Goose, options) == "profile:" + x)
            && ("executor" !in f || !f["executor"].JStr? || f["executor"].text == "" ==> SubcontextKey(Hermes, options) == "executor:aethrolink-agent")
            && ("session_key" !in f || !f["session_key"].JStr? || f["session_key"].text == "" ==> SubcontextKey(OpenClaw, options) == "session:main")
            && ("profile" !in f || !f["profile"].JStr? || f["profile"].text == "" ==> SubcontextKey(Goose, options) == "profile:default")
  {
  }

  /** The handle state a submit stores and a rehydrated handle rebuilds: the part that later
      resume and cancel calls read a subcontext key from. */
  function AdapterState(dialect: Dialect, threadId: string, options: Json): (state: Json)
    requires options.JObj?
    ensures state.JObj?
  {
    var scope := if dialect == OpenClaw && threadId != "" then threadId else ScopeName(dialect, options);
    JObj(map[ScopeOption(dialect) := JStr(scope)])
  }

  /** Health, readiness, dispatch and stop, called with the same request and unchanged defaults,
      name one worker: the shallow merge each of them repeats cannot move the key. */
  lemma SameRequestSameWorker(dialect: Dialect, defaults: Json, request: Json)
    requires defaults.JObj? && request.JObj?
    ensures var task := Merged(defaults, request);
            SubcontextKey(dialect, AdapterMerged(defaults, task)) == SubcontextKey(dialect, task)
            == SubcontextKey(dialect, AdapterMerged(defaults, Merged(defaults, task)))
  {
    ShallowMergeIdentity(defaults, Merged(defaults, request));
    MergeOntoExtension(defaults, request);
  }

  /** A control call finds the worker its task was dispatched to, except for an OpenClaw task bound to a
      thread whose id is not the session key: its handle carries the thread id there. Of the two control
      calls only cancel gets that far, since OpenClaw refuses every resume before a worker is looked up. */
  lemma ControlReachesWorker(dialect: Dialect, threadId: string, options: Json)
    requires options.JObj?
    ensures SubcontextKey(dialect, AdapterState(dialect, threadId, options)) == SubcontextKey(dialect, options)
            <==> dialect != OpenClaw || threadId == "" || threadId == ScopeName(dialect, options)
  {
    var state := AdapterState(dialect, threadId, options);
    assert StringAt(state.fields, ScopeOption(dialect)) != "";
    if dialect == OpenClaw && threadId != "" {
      assert ("session:" + threadId)[8..] == threadId;
      assert ("session:" + ScopeName(dialect, options))[8..] == ScopeName(dialect, options);
    }
  }

  // ---- The manager's entry key ----

  function EntryKey(targetId: string, subcontext: string): string {
    targetId + "::" + OrDefault(subcontext, "default")
  }

  /** The second target continues the first with a separator, and the first key says again what it adds. */
  predicate Nested(t1: string, k1: string, t2: string, k2: string) {
    && |t1| + 2 <= |t2|
    && t2[..|t1| + 2] == t1 + "::"
    && k1 == t2[|t1| + 2..] + "::" + k2
  }

  /** The separators of the two entries overlap in one colon. */
  predicate Overlaps(t1: string, k1: string, t2: string, k2: string) {
    t2 == t1 + ":" && k1 == ":" + k2
  }

  lemma Parts(t: string, k: string)
    ensures var whole := t + "::" + k;
            && |whole| == |t| + 2 + |k| && whole[..|t|] == t && whole[..|t| + 2] == t + "::" && whole[|t| + 2..] == k
            && whole[|t|] == ':' && whole[|t| + 1] == ':'
  {
  }

  lemma ShorterTarget(t1: string, k1: string, t2: string, k2: string)
    requires t1 + "::" + k1 == t2 + "::" + k2 && |t1| <= |t2|
    ensures (t1 == t2 && k1 == k2) || Nested(t1, k1, t2, k2) || Overlaps(t1, k1, t2, k2)
  {
    var whole := t1 + "::" + k1;
    Parts(t1, k1);
    Parts(t2, k2);
    if |t2| == |t1| + 1 {
      assert t2 == whole[..|t1|] + [whole[|t1|]] && ":" == [':'];
      assert k1 == [whole[|t1| + 2]] + whole[|t1| + 3..];
    } else if |t1| + 2 <= |t2| {
      assert t2[..|t1| + 2] == whole[..|t1| + 2];
      assert k1 == whole[|t1| + 2..|t2|] + "::" + k2;
    }
  }

  lemma LongerTarget(t1: string, k1: string, t2: string, k2: string)
    requires Nested(t1, k1, t2, k2) || Overlaps(t1, k1, t2, k2)
    ensures t1 + "::" + k1 == t2 + "::" + k2
  {
    if Nested(t1, k1, t2, k2) {
      var m := t2[|t1| + 2..];
      assert t2 == t1 + "::" + m;
    }
  }

  /** For all targets and subcontexts: two calls share a worker entry exactly when they name the same target and
      the same subcontext, the empty one meaning "default", or one target continues the other as above. */
  lemma EntryKeyIdentifies(t1: string, c1: string, t2: string, c2: string)
    ensures var k1, k2 := OrDefault(c1, "default"), OrDefault(c2, "default");
            EntryKey(t1, c1) == EntryKey(t2, c2)
            <==> (t1 == t2 && k1 == k2) || Nested(t1, k1, t2, k2) || Nested(t2, k2, t1, k1)
                 || Overlaps(t1, k1, t2, k2) || Overlaps(t2, k2, t1, k1)
  {
    var k1, k2 := OrDefault(c1, "default"), OrDefault(c2, "default");
    if EntryKey(t1, c1) == EntryKey(t2, c2) {
      if |t1| <= |t2| {
        ShorterTarget(t1, k1, t2, k2);
      } else {
        ShorterTarget(t2, k2, t1, k1);
      }
    } else {
      if Nested(t1, k1, t2, k2) || Overlaps(t1, k1, t2, k2) {
        LongerTarget(t1, k1, t2, k2);
      }
      if Nested(t2, k2, t1, k1) || Overlaps(t2, k2, t1, k1) {
        LongerTarget(t2, k2, t1, k1);
      }
    }
  }

  /** Keys of dialects are told apart by dialect and scope name. */
  lemma DialectKeys(d1: Dialect, n1: string, d2: Dialect, n2: string)
    ensures Prefix(d1) + n1 == Prefix(d2) + n2 <==> d1 == d2 && n1 == n2
    ensures (Prefix(d1) + n1)[0] != ':'
  {
    var a, b := Prefix(d1) + n1, Prefix(d2) + n2;
    assert a[0] == Prefix(d1)[0] && b[0] == Prefix(d2)[0];
    assert a[|Prefix(d1)|..] == n1 && b[|Prefix(d2)|..] == n2;
  }

  /** For all targets and all options of the dialects: two requests share a worker entry exactly when they agree on
      target, dialect and scope name, or one target continues the other with what the first key says. */
  lemma DialectEntriesCollide(t1: string, d1: Dialect, o1: Json, t2: string, d2: Dialect, o2: Json)
    requires o1.JObj? && o2.JObj?
    ensures var k1, k2 := SubcontextKey(d1, o1), SubcontextKey(d2, o2);
            EntryKey(t1, k1) == EntryKey(t2, k2)
            <==> (t1 == t2 && d1 == d2 && ScopeName(d1, o1) == ScopeName(d2, o2))
                 || Nested(t1, k1, t2, k2) || Nested(t2, k2, t1, k1)
  {
    var k1, k2 := SubcontextKey(d1, o1), SubcontextKey(d2, o2);
    DialectKeys(d1, ScopeName(d1, o1), d2, ScopeName(d2, o2));
    DialectKeys(d2, ScopeName(d2, o2), d1, ScopeName(d1, o1));
    EntryKeyIdentifies(t1, k1, t2, k2);
    assert (":" + k2)[0] == ':' && (":" + k1)[0] == ':';
  }

  lemma ContinuedHasColon(t1: string, k1: string, t2: string, k2: string)
    ensures Nested(t1, k1, t2, k2) || Overlaps(t1, k1, t2, k2) ==> ':' in t2
  {
    if Nested(t1, k1, t2, k2) {
      assert t2[|t1|] == t2[..|t1| + 2][|t1|];
    }
  }

  /** Target ids without a colon keep their entries apart. */
  lemma ColonFreeTargets(t1: string, c1: string, t2: string, c2: string)
    requires ':' !in t1 && ':' !in t2 && EntryKey(t1, c1) == EntryKey(t2, c2)
    ensures t1 == t2 && OrDefault(c1, "default") == OrDefault(c2, "default")
  {
    EntryKeyIdentifies(t1, c1, t2, c2);
    ContinuedHasColon(t1, OrDefault(c1, "default"), t2, OrDefault(c2, "default"));
    ContinuedHasColon(t2, OrDefault(c2, "default"), t1, OrDefault(c1, "default"));
  }

  function SessionOptions(sessionKey: string): Json {
    JObj(map["session_key" := JStr(sessionKey)])
  }

  lemma NestedFrom(a: string, m: string, k: string)
    ensures Nested(a, m + "::" + k, a + "::" + m, k)
  {
    var t := a + "::" + m;
    assert t[..|a| + 2] == a + "::" && t[|a| + 2..] == m;
  }

  /** Two OpenClaw targets of different names share one worker: the session key of the first goes on
      where the name of the second does. */
  lemma EntryKeyCollision(a: string, x: string, y: string)
    requires y != ""
    ensures var t, o1, o2 := a + "::" + ("session:" + x), SessionOptions(x + ("::" + ("session:" + y))), SessionOptions(y);
            && t != a && ScopeName(OpenClaw, o1) != ScopeName(OpenClaw, o2)
            && EntryKey(a, SubcontextKey(OpenClaw, o1)) == EntryKey(t, SubcontextKey(OpenClaw, o2))
  {
    var m, k2, name := "session:" + x, "session:" + y, x + ("::" + ("session:" + y));
    var t, o1, o2 := a + "::" + m, SessionOptions(name), SessionOptions(y);
    assert |t| > |a| && |name| > |y|;
    assert ScopeName(OpenClaw, o1) == name && ScopeName(OpenClaw, o2) == y;
    var k1 := "session:" + name;
    assert SubcontextKey(OpenClaw, o1) == k1 && SubcontextKey(OpenClaw, o2) == k2;
    assert k1 == m + "::" + k2 by { Regroup("session:", x, "::", k2); }
    NestedFrom(a, m, k2);
    LongerTarget(a, k1, t, k2);
  }

  lemma Regroup(p: string, x: string, sep: string, k: string)
    ensures p + (x + (sep + k)) == p + x + sep + k
  {
  }
}
