/** The cache of peer targets: one sync on one node, and what any number of nodes make of it. */
module PeerCache {
  import opened TaskTypes

  /** A target as a node lists it: `remote` when it is itself only cached from somewhere. */
  datatype Spec = Spec(target: string, remote: bool, capabilities: seq<string>, defaults: JsonMap)

  /** The primary key of a cached row. */
  datatype Key = Key(peer: string, target: string)

  type Cache = map<Key, Spec>

  // ---- One sync ----

  /** The upserts for the first `n` targets of an export; remote ones are skipped. */
  function Upserted(cache: Cache, peer: string, export_: seq<Spec>, n: nat): Cache
    requires n <= |export_|
  {
    if n == 0 then cache
    else
      var before := Upserted(cache, peer, export_, n - 1);
      if export_[n - 1].remote then before else before[Key(peer, export_[n - 1].target) := export_[n - 1]]
  }

  predicate ExportsLocal(export_: seq<Spec>, target: string) {
    exists i :: 0 <= i < |export_| && !export_[i].remote && export_[i].target == target
  }

  /** DELETE ... WHERE peer_id = ? AND target_id NOT IN (...). */
  function Pruned(cache: Cache, peer: string, kept: seq<string>): Cache {
    map k | k in cache && (k.peer != peer || k.target in kept) :: cache[k]
  }

  function LocalIds(export_: seq<Spec>): seq<string> {
    if export_ == [] then []
    else
      var before := LocalIds(export_[..|export_| - 1]);
      if export_[|export_| - 1].remote then before else before + [export_[|export_| - 1].target]
  }

  function Synced(cache: Cache, peer: string, export_: seq<Spec>): Cache {
    Pruned(Upserted(cache, peer, export_, |export_|), peer, LocalIds(export_))
  }

  /** `spec` is the last local entry for its target. */
  predicate LastLocal(export_: seq<Spec>, n: nat, spec: Spec)
    requires n <= |export_|
  {
    exists i :: 0 <= i < n && export_[i] == spec && !spec.remote
                && forall j :: i < j < n ==> export_[j].remote || export_[j].target != spec.target
  }

  lemma {:induction false} UpsertedMeans(cache: Cache, peer: string, export_: seq<Spec>, n: nat, k: Key)
    requires n <= |export_|
    ensures var after := Upserted(cache, peer, export_, n);
            && (k.peer != peer || !ExportsLocal(export_[..n], k.target) ==>
                  (k in after <==> k in cache) && (k in after ==> after[k] == cache[k]))
            && (k.peer == peer && ExportsLocal(export_[..n], k.target) ==>
                  k in after && after[k].target == k.target && LastLocal(export_, n, after[k]))
  {
    if n > 0 {
      UpsertedMeans(cache, peer, export_, n - 1, k);
      var last := export_[n - 1];
      assert export_[..n] == export_[..n - 1] + [last];
      ExportsOneMore(export_[..n - 1], last, k.target);
      var before := Upserted(cache, peer, export_, n - 1);
      if k.peer == peer && !last.remote && last.target == k.target {
        assert export_[n - 1] == last;
      } else if k.peer == peer && ExportsLocal(export_[..n - 1], k.target) {
        LastLocalStays(export_, n - 1, before[k]);
      }
    }
  }

  lemma ExportsOneMore(front: seq<Spec>, last: Spec, target: string)
    ensures ExportsLocal(front + [last], target) <==> ExportsLocal(front, target) || (!last.remote && last.target == target)
  {
    var all := front + [last];
    assert all[|front|] == last && forall i :: 0 <= i < |front| ==> all[i] == front[i];
  }

  lemma LastLocalStays(export_: seq<Spec>, n: nat, spec: Spec)
    requires n < |export_| && LastLocal(export_, n, spec) && (export_[n].remote || export_[n].target != spec.target)
    ensures LastLocal(export_, n + 1, spec)
  {
    var i :| 0 <= i < n && export_[i] == spec && !spec.remote
             && forall j :: i < j < n ==> export_[j].remote || export_[j].target != spec.target;
    assert export_[i] == spec;
  }

  lemma {:induction false} LocalIdsMean(export_: seq<Spec>, target: string)
    ensures target in LocalIds(export_) <==> ExportsLocal(export_, target)
  {
    if export_ != [] {
      var front := export_[..|export_| - 1];
      LocalIdsMean(front, target);
      ExportsOneMore(front, export_[|export_| - 1], target);
      assert export_ == front + [export_[|export_| - 1]];
    }
  }

  /** A sync makes the peer's cached rows exactly its exported non-remote targets, each as it was last
      listed, and leaves the rows of every other peer alone. */
  lemma SyncIsExact(cache: Cache, peer: string, export_: seq<Spec>, k: Key)
    ensures var after := Synced(cache, peer, export_);
            && (k.peer != peer ==> (k in after <==> k in cache) && (k in after ==> after[k] == cache[k]))
            && (k.peer == peer ==> (k in after <==> ExportsLocal(export_, k.target)))
            && (k.peer == peer && k in after ==> after[k].target == k.target && LastLocal(export_, |export_|, after[k]))
  {
    UpsertedMeans(cache, peer, export_, |export_|, k);
    LocalIdsMean(export_, k.target);
    assert export_[..|export_|] == export_;
  }

  /** A target has one last local entry. */
  lemma LastLocalIsOne(export_: seq<Spec>, a: Spec, b: Spec)
    requires LastLocal(export_, |export_|, a) && LastLocal(export_, |export_|, b) && a.target == b.target
    ensures a == b
  {
    var i :| 0 <= i < |export_| && export_[i] == a && !a.remote
             && forall j :: i < j < |export_| ==> export_[j].remote || export_[j].target != a.target;
    var k :| 0 <= k < |export_| && export_[k] == b && !b.remote
             && forall j :: k < j < |export_| ==> export_[j].remote || export_[j].target != b.target;
  }

  /** Syncing twice from one export is syncing once: the same rows, with the same contents. */
  lemma SyncTwice(cache: Cache, peer: string, export_: seq<Spec>)
    ensures Synced(Synced(cache, peer, export_), peer, export_) == Synced(cache, peer, export_)
  {
    hide Synced, LastLocal;
    var once := Synced(cache, peer, export_);
    var twice := Synced(once, peer, export_);
    forall k ensures (k in twice <==> k in once) && (k in twice && k in once ==> twice[k] == once[k]) {
      SyncIsExact(cache, peer, export_, k);
      SyncIsExact(once, peer, export_, k);
      if k.peer == peer && k in once {
        LastLocalIsOne(export_, once[k], twice[k]);
      }
    }
  }

  /** How far a sync gets: the peer and both its answers, then every upsert, then the delete. */
  datatype SyncFault = NoFault | UnknownPeer | ProbeFails | UpsertFails(at: nat) | DeleteFails

  class PeerTargetTable {
    var targets: Cache

    constructor ()
      ensures targets == map[]
    {
      targets := map[];
    }

    method UpsertPeerTarget(peer: string, spec: Spec)
      modifies this
      ensures targets == old(targets)[Key(peer, spec.target) := spec]
    {
      targets := targets[Key(peer, spec.target) := spec];
    }

    method DeletePeerTargetsExcept(peer: string, kept: seq<string>)
      modifies this
      ensures targets == Pruned(old(targets), peer, kept)
    {
      if kept == [] {
        targets := map k | k in targets && k.peer != peer :: targets[k];
      } else {
        targets := map k | k in targets && !(k.peer == peer && k.target !in kept) :: targets[k];
      }
    }

    /** syncPeerTargets: a failure on the way leaves the upserts made so far. */
    method SyncPeerTargets(peer: string, export_: seq<Spec>, fault: SyncFault) returns (ok: bool)
      modifies this
      ensures ok ==> targets == Synced(old(targets), peer, export_)
      ensures ok <==> fault == NoFault || (fault.UpsertFails? && (fault.at >= |export_| || export_[fault.at].remote))
      ensures fault.UnknownPeer? || fault.ProbeFails? ==> targets == old(targets)
      ensures !ok && fault.UpsertFails? ==> targets == Upserted(old(targets), peer, export_, fault.at)
      ensures fault.DeleteFails? ==> targets == Upserted(old(targets), peer, export_, |export_|)
    {
      if fault.UnknownPeer? || fault.ProbeFails? {
        return false;
      }
      var cachedIds: seq<string> := [];
      var i := 0;
      while i < |export_|
        invariant 0 <= i <= |export_|
        invariant targets == Upserted(old(targets), peer, export_, i)
        invariant cachedIds == LocalIds(export_[..i])
        invariant fault.UpsertFails? && fault.at < i ==> export_[fault.at].remote
      {
        assert export_[..i + 1][..i] == export_[..i];
        var target := export_[i];
        i := i + 1;
        if target.remote {
          continue;
        }
        if fault.UpsertFails? && fault.at == i - 1 {
          return false;
        }
        UpsertPeerTarget(peer, target);
        cachedIds := cachedIds + [target.target];
      }
      assert export_[..i] == export_;
      if fault.DeleteFails? {
        return false;
      }
      DeletePeerTargetsExcept(peer, cachedIds);
      return true;
    }
  }

  // ---- Many nodes ----

  /** One node: its own agents with their adapters, the addresses of its peers, and its cache. */
  datatype Node = Node(agents: map<string, string>, peers: map<string, nat>, cache: Cache)

  /** A sync that has read its peer's answer and not yet finished writing. */
  datatype Fetch = Fetch(node: nat, peer: string, listed: seq<Spec>)

  datatype Network = Network(nodes: map<nat, Node>, fetches: set<Fetch>)

  datatype Action =
    | Join(n: nat)
    | Register(n: nat, target: string, adapter: string)
    | AddPeer(n: nat, peer: string, address: nat)
    | ReadPeer(n: nat, peer: string, listed: seq<Spec>)
    | WriteSync(fetch: Fetch, upserts: nat, deletes: bool)

  /** GET /v1/targets of a node: every agent of its own, whatever its adapter, and cached ones as remote. */
  ghost predicate Answers(node: Node, listed: seq<Spec>) {
    && (forall i :: 0 <= i < |listed| && !listed[i].remote ==> listed[i].target in node.agents)
    && (forall t :: t in node.agents ==> ExportsLocal(listed, t))
  }

  /** Addresses are fixed: a peer that is added again keeps its address. */
  ghost predicate Enabled(net: Network, a: Action) {
    match a
    case Join(n) => n !in net.nodes
    case Register(n, _, _) => n in net.nodes
    case AddPeer(n, peer, address) =>
      n in net.nodes && (peer in net.nodes[n].peers ==> net.nodes[n].peers[peer] == address)
    case ReadPeer(n, peer, listed) =>
      && n in net.nodes && peer in net.nodes[n].peers && net.nodes[n].peers[peer] in net.nodes
      && Answers(net.nodes[net.nodes[n].peers[peer]], listed)
    case WriteSync(fetch, upserts, deletes) =>
      fetch in net.fetches && fetch.node in net.nodes && upserts <= |fetch.listed| && (deletes ==> upserts == |fetch.listed|)
  }

  ghost function Do(net: Network, a: Action): Network
    requires Enabled(net, a)
  {
    match a
    case Join(n) => net.(nodes := net.nodes[n := Node(map[], map[], map[])])
    case Register(n, target, adapter) =>
      net.(nodes := net.nodes[n := net.nodes[n].(agents := net.nodes[n].agents[target := adapter])])
    case AddPeer(n, peer, address) =>
      net.(nodes := net.nodes[n := net.nodes[n].(peers := net.nodes[n].peers[peer := address])])
    case ReadPeer(n, peer, listed) => net.(fetches := net.fetches + {Fetch(n, peer, listed)})
    case WriteSync(fetch, upserts, deletes) =>
      var node := net.nodes[fetch.node];
      var cache := if deletes then Synced(node.cache, fetch.peer, fetch.listed)
                   else Upserted(node.cache, fetch.peer, fetch.listed, upserts);
      net.(nodes := net.nodes[fetch.node := node.(cache := cache)],
           fetches := if deletes then net.fetches - {fetch} else net.fetches)
  }

  ghost predicate Legal(net: Network, run: seq<Action>)
    decreases run
  {
    run == [] || (Enabled(net, run[0]) && Legal(Do(net, run[0]), run[1..]))
  }

  ghost function Exec(net: Network, run: seq<Action>): Network
    requires Legal(net, run)
    decreases run
  {
    if run == [] then net else Exec(Do(net, run[0]), run[1..])
  }

  /** `target` is an agent of the node at that peer's address. */
  predicate OwnedBy(net: Network, n: nat, peer: string, target: string) {
    && n in net.nodes && peer in net.nodes[n].peers && net.nodes[n].peers[peer] in net.nodes
    && target in net.nodes[net.nodes[n].peers[peer]].agents
  }

  ghost predicate CacheInv(net: Network) {
    forall n, k :: n in net.nodes && k in net.nodes[n].cache ==> OwnedBy(net, n, k.peer, k.target)
  }

  ghost predicate FetchInv(net: Network) {
    forall f, i :: f in net.fetches && 0 <= i < |f.listed| && !f.listed[i].remote ==> OwnedBy(net, f.node, f.peer, f.listed[i].target)
  }

  lemma OwnershipStays(net: Network, a: Action, n: nat, peer: string, target: string)
    requires Enabled(net, a) && OwnedBy(net, n, peer, target)
    ensures OwnedBy(Do(net, a), n, peer, target)
  {
    hide Synced, Upserted, Answers;
  }

  lemma {:induction false} UpsertedFrom(cache: Cache, peer: string, listed: seq<Spec>, n: nat, k: Key)
    requires n <= |listed| && k in Upserted(cache, peer, listed, n)
    ensures k in cache || (k.peer == peer && exists i :: 0 <= i < |listed| && !listed[i].remote && listed[i].target == k.target)
  {
    if n > 0 && !(!listed[n - 1].remote && k == Key(peer, listed[n - 1].target)) {
      UpsertedFrom(cache, peer, listed, n - 1, k);
    }
  }

  /** A written row was there before or comes from the answer. */
  lemma WrittenFrom(net: Network, a: Action, n: nat, k: Key)
    requires Enabled(net, a) && n in Do(net, a).nodes && k in Do(net, a).nodes[n].cache
    ensures (n in net.nodes && k in net.nodes[n].cache)
         || (a.WriteSync? && n == a.fetch.node && k.peer == a.fetch.peer
             && exists i :: 0 <= i < |a.fetch.listed| && !a.fetch.listed[i].remote && a.fetch.listed[i].target == k.target)
  {
    hide Upserted, Answers;
    if a.WriteSync? && n == a.fetch.node {
      var node := net.nodes[n];
      UpsertedFrom(node.cache, a.fetch.peer, a.fetch.listed, if a.deletes then |a.fetch.listed| else a.upserts, k);
    }
  }

  lemma CacheInvKept(net: Network, a: Action)
    requires CacheInv(net) && FetchInv(net) && Enabled(net, a)
    ensures CacheInv(Do(net, a))
  {
    hide Do, Enabled, OwnedBy;
    forall n, k | n in Do(net, a).nodes && k in Do(net, a).nodes[n].cache ensures OwnedBy(Do(net, a), n, k.peer, k.target) {
      WrittenFrom(net, a, n, k);
      if n in net.nodes && k in net.nodes[n].cache {
        OwnershipStays(net, a, n, k.peer, k.target);
      } else {
        WriterKnows(net, a);
        var i :| 0 <= i < |a.fetch.listed| && !a.fetch.listed[i].remote && a.fetch.listed[i].target == k.target;
        OwnershipStays(net, a, n, k.peer, k.target);
      }
    }
  }

  lemma WriterKnows(net: Network, a: Action)
    requires Enabled(net, a) && a.WriteSync?
    ensures a.fetch in net.fetches
  {
  }

  lemma FetchInvKept(net: Network, a: Action)
    requires FetchInv(net) && Enabled(net, a)
    ensures FetchInv(Do(net, a))
  {
    hide Synced, Upserted;
    forall f, i | f in Do(net, a).fetches && 0 <= i < |f.listed| && !f.listed[i].remote
      ensures OwnedBy(Do(net, a), f.node, f.peer, f.listed[i].target)
    {
      if f in net.fetches {
        OwnershipStays(net, a, f.node, f.peer, f.listed[i].target);
      }
    }
  }

  const Empty := Network(map[], {})

  lemma {:induction false} RunKeepsInv(net: Network, run: seq<Action>)
    requires CacheInv(net) && FetchInv(net) && Legal(net, run)
    ensures CacheInv(Exec(net, run)) && FetchInv(Exec(net, run))
    decreases run
  {
    hide CacheInv, FetchInv, Do, Enabled;
    if run != [] {
      CacheInvKept(net, run[0]);
      FetchInvKept(net, run[0]);
      RunKeepsInv(Do(net, run[0]), run[1..]);
    }
  }

  // ---- Where a task goes ----

  datatype Route = Here | Relay(to: nat) | Refused

  predicate Dispatchable(node: Node, target: string) {
    target in node.agents && node.agents[target] != ""
  }

  function Matches(cache: Cache, target: string): set<Key> {
    set k | k in cache && k.target == target
  }

  /** CreateTask with a named target: a dispatchable agent of one's own wins; otherwise exactly one cached
      peer target is relayed to. */
  ghost function RouteOf(net: Network, n: nat, target: string): Route
    requires n in net.nodes
  {
    var node := net.nodes[n];
    var matches := Matches(node.cache, target);
    if Dispatchable(node, target) then Here
    else if |matches| != 1 then Refused
    else
      var k :| k in matches;
      if k.peer in node.peers && node.peers[k.peer] in net.nodes then Relay(node.peers[k.peer]) else Refused
  }

  lemma RelayIsOwned(net: Network, n: nat, target: string)
    requires CacheInv(net) && n in net.nodes && RouteOf(net, n, target).Relay?
    ensures RouteOf(net, n, target).to in net.nodes && target in net.nodes[RouteOf(net, n, target).to].agents
  {
    var node := net.nodes[n];
    forall k | k in node.cache && k.target == target ensures OwnedBy(net, n, k.peer, target) {
    }
  }

  /** In every run with fixed addresses a relayed task arrives at a node that has the agent; it stops there
      exactly when that agent has an adapter. */
  lemma RelayArrives(run: seq<Action>, n: nat, target: string)
    requires Legal(Empty, run) && n in Exec(Empty, run).nodes && RouteOf(Exec(Empty, run), n, target).Relay?
    ensures var net := Exec(Empty, run);
            var m := RouteOf(net, n, target).to;
            && m in net.nodes && target in net.nodes[m].agents
            && (RouteOf(net, m, target) == Here <==> net.nodes[m].agents[target] != "")
  {
    hide RouteOf, OwnedBy;
    RunKeepsInv(Empty, run);
    RelayIsOwned(Exec(Empty, run), n, target);
    HereExactly(Exec(Empty, run), RouteOf(Exec(Empty, run), n, target).to, target);
  }

  lemma HereExactly(net: Network, n: nat, target: string)
    requires n in net.nodes
    ensures RouteOf(net, n, target) == Here <==> Dispatchable(net.nodes[n], target)
  {
  }

  lemma TwoAreNotOne(s: set<Key>, j: Key, k: Key)
    requires j in s && k in s && j != k
    ensures |s| != 1
  {
    assert k in s - {j};
    assert |s| == |s - {j}| + 1;
  }

  lemma MatchesCount(cache: Cache, target: string)
    ensures (forall k :: k in cache ==> k.target != target) ==> Matches(cache, target) == {}
    ensures forall k :: k in cache && k.target == target && (forall j :: j in cache && j.target == target ==> j == k)
              ==> Matches(cache, target) == {k}
    ensures forall j, k :: j in cache && k in cache && j.target == k.target == target && j != k ==> |Matches(cache, target)| != 1
  {
    forall j, k | j in cache && k in cache && j.target == k.target == target && j != k
      ensures |Matches(cache, target)| != 1
    {
      TwoAreNotOne(Matches(cache, target), j, k);
    }
  }

  /** Where a named target goes, exactly: an agent of one's own with an adapter wins over any cached one; without
      it, the one peer that lists the target gets the task; none, or two of them, and it is refused. */
  lemma RouteIsExact(net: Network, n: nat, target: string)
    requires n in net.nodes
    ensures var node, r := net.nodes[n], RouteOf(net, n, target);
            && (r == Here <==> target in node.agents && node.agents[target] != "")
            && (r != Here ==>
                  && (forall k :: k in node.cache && k.target == target && (forall j :: j in node.cache && j.target == target ==> j == k)
                        ==> r == if k.peer in node.peers && node.peers[k.peer] in net.nodes
                                 then Relay(node.peers[k.peer]) else Refused)
                  && ((forall k :: k in node.cache ==> k.target != target) ==> r == Refused)
                  && (forall j, k :: j in node.cache && k in node.cache && j.target == k.target == target && j != k ==> r == Refused))
  {
    MatchesCount(net.nodes[n].cache, target);
  }

  /** Every agent is registered with an adapter. */
  predicate WithAdapters(run: seq<Action>) {
    forall i :: 0 <= i < |run| && run[i].Register? ==> run[i].adapter != ""
  }

  ghost predicate AllDispatchable(net: Network) {
    forall n, t :: n in net.nodes && t in net.nodes[n].agents ==> net.nodes[n].agents[t] != ""
  }

  lemma {:induction false} AdaptersKept(net: Network, run: seq<Action>)
    requires AllDispatchable(net) && Legal(net, run) && WithAdapters(run)
    ensures AllDispatchable(Exec(net, run))
    decreases run
  {
    hide Answers, Synced, Upserted;
    if run != [] {
      assert run[0].Register? ==> run[0].adapter != "";
      assert forall i :: 0 <= i < |run[1..]| ==> run[1..][i] == run[i + 1];
      AdaptersKept(Do(net, run[0]), run[1..]);
    }
  }

  /** With adapters on all agents a relay is one hop. */
  lemma OneHop(run: seq<Action>, n: nat, target: string)
    requires Legal(Empty, run) && WithAdapters(run) && n in Exec(Empty, run).nodes && RouteOf(Exec(Empty, run), n, target).Relay?
    ensures var net := Exec(Empty, run);
            RouteOf(net, n, target).to in net.nodes && RouteOf(net, RouteOf(net, n, target).to, target) == Here
  {
    hide RouteOf;
    RelayArrives(run, n, target);
    AdaptersKept(Empty, run);
  }

  // ---- Without adapters ----

  /** Where the task is after `hops` relays, or None when it stopped before. */
  ghost function After(net: Network, n: nat, target: string, hops: nat): Option<nat>
    decreases hops
  {
    if hops == 0 then Some(n)
    else if n in net.nodes && RouteOf(net, n, target).Relay? then After(net, RouteOf(net, n, target).to, target, hops - 1)
    else None
  }

  lemma {:induction false} TwoNodesPingPong(net: Network, a: nat, b: nat, target: string, hops: nat)
    requires a in net.nodes && b in net.nodes && RouteOf(net, a, target) == Relay(b) && RouteOf(net, b, target) == Relay(a)
    ensures After(net, a, target, hops) == Some(if hops % 2 == 0 then a else b)
    decreases hops
  {
    hide RouteOf;
    if hops > 0 {
      TwoNodesPingPong(net, b, a, target, hops - 1);
    }
  }

  /** Two nodes that know each other and each have an agent of the same name without an adapter pass a
      task for it back and forth without end. */
  lemma AdapterlessTargetsPingPong(net: Network, a: nat, b: nat, peerA: string, peerB: string, target: string, spec: Spec, hops: nat)
    requires a != b && a in net.nodes && b in net.nodes
    requires net.nodes[a] == Node(map[target := ""], map[peerB := b], map[Key(peerB, target) := spec])
    requires net.nodes[b] == Node(map[target := ""], map[peerA := a], map[Key(peerA, target) := spec])
    ensures After(net, a, target, hops) == Some(if hops % 2 == 0 then a else b)
  {
    OneMatch(net, a, peerB, b, target, spec);
    OneMatch(net, b, peerA, a, target, spec);
    TwoNodesPingPong(net, a, b, target, hops);
  }

  lemma OneMatch(net: Network, n: nat, peer: string, m: nat, target: string, spec: Spec)
    requires n in net.nodes && m in net.nodes
    requires net.nodes[n] == Node(map[target := ""], map[peer := m], map[Key(peer, target) := spec])
    ensures RouteOf(net, n, target) == Relay(m)
  {
    var matches := set k | k in net.nodes[n].cache && k.target == target;
    assert matches == {Key(peer, target)};
  }

  lemma SyncOfOne(peer: string, spec: Spec)
    requires !spec.remote
    ensures Synced(map[], peer, [spec]) == map[Key(peer, spec.target) := spec]
  {
    assert [spec][..0] == [];
    assert Upserted(map[], peer, [spec], 0) == map[];
    assert Upserted(map[], peer, [spec], 1) == map[Key(peer, spec.target) := spec];
    assert LocalIds([spec]) == [] + [spec.target];
  }

  /** Unfolds one action of a run. */
  lemma Stepwise(net: Network, run: seq<Action>)
    requires run != [] && Enabled(net, run[0]) && Legal(Do(net, run[0]), run[1..])
    ensures Legal(net, run) && Exec(net, run) == Exec(Do(net, run[0]), run[1..])
  {
  }

  /** One node registers an agent without an adapter, learns of a peer and syncs from it. */
  lemma Acquainted(net: Network, n: nat, m: nat, peer: string, spec: Spec) returns (run: seq<Action>)
    requires n in net.nodes && m in net.nodes && n != m && !spec.remote && net.nodes[n].cache == map[]
    requires net.nodes[n].peers == map[] && spec.target in net.nodes[m].agents && net.nodes[m].agents.Keys == {spec.target}
    requires Fetch(n, peer, [spec]) !in net.fetches
    ensures Legal(net, run)
    ensures Exec(net, run) == net.(nodes := net.nodes[n := net.nodes[n].(peers := map[peer := m], cache := map[Key(peer, spec.target) := spec])])
  {
    SyncOfOne(peer, spec);
    var a, b, c := AddPeer(n, peer, m), ReadPeer(n, peer, [spec]), WriteSync(Fetch(n, peer, [spec]), 1, true);
    run := [a, b, c];
    assert run[1..] == [b, c] && [b, c][1..] == [c] && [c][1..] == [];
    var n1 := Do(net, a);
    assert [spec][0] == spec;
    assert Answers(n1.nodes[m], [spec]);
    var n2 := Do(n1, b);
    var n3 := Do(n2, c);
    assert n3.fetches == net.fetches;
    assert n3.nodes == net.nodes[n := net.nodes[n].(peers := map[peer := m], cache := map[Key(peer, spec.target) := spec])];
    Stepwise(n2, [c]);
    Stepwise(n1, [b, c]);
    Stepwise(net, run);
  }

  lemma {:induction false} Concat(net: Network, first: seq<Action>, second: seq<Action>)
    requires Legal(net, first) && Legal(Exec(net, first), second)
    ensures Legal(net, first + second) && Exec(net, first + second) == Exec(Exec(net, first), second)
    decreases first
  {
    hide Do, Enabled;
    if first == [] {
      assert first + second == second;
    } else {
      Concat(Do(net, first[0]), first[1..], second);
      assert (first + second)[1..] == first[1..] + second;
    }
  }

  /** Such a pair of nodes comes about in a plain run. */
  lemma PingPongIsReachable(target: string, hops: nat) returns (run: seq<Action>)
    ensures Legal(Empty, run) && After(Exec(Empty, run), 0, target, hops) == Some(if hops % 2 == 0 then 0 else 1)
  {
    var spec := Spec(target, false, [], map[]);
    run := Registered(target);
    var net := Exec(Empty, run);
    var first := Acquainted(net, 0, 1, "b", spec);
    Concat(Empty, run, first);
    run := run + first;
    net := Exec(Empty, run);
    var second := Acquainted(net, 1, 0, "a", spec);
    Concat(Empty, run, second);
    run := run + second;
    AdapterlessTargetsPingPong(Exec(Empty, run), 0, 1, "a", "b", target, spec, hops);
  }

  lemma Registered(target: string) returns (run: seq<Action>)
    ensures Legal(Empty, run)
    ensures Exec(Empty, run) == Network(map[0 := Node(map[target := ""], map[], map[]), 1 := Node(map[target := ""], map[], map[])], {})
  {
    var a, b, c, d := Join(0), Join(1), Register(0, target, ""), Register(1, target, "");
    run := [a, b, c, d];
    assert run[1..] == [b, c, d] && [b, c, d][1..] == [c, d] && [c, d][1..] == [d] && [d][1..] == [];
    var n1 := Do(Empty, a);
    var n2 := Do(n1, b);
    var n3 := Do(n2, c);
    var n4 := Do(n3, d);
    Stepwise(n3, [d]);
    Stepwise(n2, [c, d]);
    Stepwise(n1, [b, c, d]);
    Stepwise(Empty, run);
    assert n4.nodes == map[0 := Node(map[target := ""], map[], map[]), 1 := Node(map[target := ""], map[], map[])];
  }
}
