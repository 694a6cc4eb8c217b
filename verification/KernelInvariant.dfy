// What holds in every reachable state of the kernel module.

module KernelInvariant {
  import opened Base
  import opened Seqs
  import opened Sets
  import opened TopicModel
  import opened StoreInvariant
  import opened DomainRules
  import opened Mempools
  import opened KernelModel

  // ---------- The invariants ----------

  ghost predicate StoresOk(topics: map<int, Topic>) {
    forall T :: T in topics ==> Consistent(topics[T])
  }

  /** Subscribers belong to live processes, and every endpoint carries its process's domain. */
  ghost predicate EndpointsOk(procs: map<int, Process>, t: Topic) {
    && (forall q :: q in t.subs ==>
          Participant(procs, t.subs[q].pid) && t.subs[q].domain == procs[t.subs[q].pid].domain)
    && (forall p :: p in t.pubs && t.pubs[p].pid in procs ==>
          !procs[t.pubs[p].pid].role.UnlinkDaemon? && t.pubs[p].domain == procs[t.pubs[p].pid].domain)
  }

  ghost predicate LiveOk(procs: map<int, Process>, topics: map<int, Topic>) {
    forall T :: T in topics ==> EndpointsOk(procs, topics[T]) && NoStaleDead(procs, topics[T])
  }

  /** Every endpoint's domain has a wrapper on the endpoint's store. */
  ghost predicate Homed(wrappers: map<Cell, int>, T: int, t: Topic) {
    && (forall p :: p in t.pubs ==> exists c :: c in CellsOf(wrappers, T) && c.domain == t.pubs[p].domain)
    && (forall q :: q in t.subs ==> exists c :: c in CellsOf(wrappers, T) && c.domain == t.subs[q].domain)
  }

  /** Two wrappers share a store iff their cells are partners. */
  ghost predicate PairsOk(rules: map<int, Rule>, wrappers: map<Cell, int>) {
    forall c, d :: c in wrappers && d in wrappers && c != d ==>
      (wrappers[c] == wrappers[d] <==> Partner(rules, c) == Some(d))
  }

  /** A wrapper's store exists and caches the rule a fresh lookup for the wrapper's cell would find. */
  ghost predicate CachedRulesOk(rules: map<int, Rule>, wrappers: map<Cell, int>, topics: map<int, Topic>) {
    forall c :: c in wrappers ==> wrappers[c] in topics && topics[wrappers[c]].rule == Find(rules, c)
  }

  ghost predicate RefcntsOk(wrappers: map<Cell, int>, topics: map<int, Topic>, nextTopic: int) {
    forall T :: T in topics ==>
      && T < nextTopic && topics[T].refcnt == |CellsOf(wrappers, T)| && CellsOf(wrappers, T) != {}
      && Homed(wrappers, T, topics[T])
  }

  ghost predicate GroupingOk(rules: map<int, Rule>, wrappers: map<Cell, int>, topics: map<int, Topic>, nextTopic: int) {
    && PairsOk(rules, wrappers)
    && CachedRulesOk(rules, wrappers, topics)
    && RefcntsOk(wrappers, topics, nextTopic)
  }

  ghost predicate RulesOk(rules: map<int, Rule>, nextRule: int) {
    Disjoint(rules) && forall i :: i in rules ==> i < nextRule
  }

  /** Live processes own distinct pools and map them; only live processes map anything. */
  ghost predicate OwnersOk(procs: map<int, Process>, pools: seq<Pool>) {
    && (forall pid :: Alive(procs, pid) ==>
          procs[pid].pool < |pools| && pid in pools[procs[pid].pool].pids)
    && (forall k, pid :: 0 <= k < |pools| && pid in pools[k].pids ==> Alive(procs, pid))
    && (forall a, b :: Alive(procs, a) && Alive(procs, b) && a != b ==> procs[a].pool != procs[b].pool)
  }

  ghost predicate MemoryOk(s: State) {
    PoolsOk(s.pools) && LaidOut(s.pools, s.poolStart, s.poolSize) && OwnersOk(s.procs, s.pools)
  }

  /** Singletons: one daemon per namespace, one live manager and one agent per (namespace, domain). */
  ghost predicate RegistryOk(procs: map<int, Process>, agents: set<Agent>) {
    && (forall a, b, ns :: IsDaemonOf(procs, ns, a) && IsDaemonOf(procs, ns, b) ==> a == b)
    && (forall a, b, ns, d :: IsManagerOf(procs, ns, d, a) && IsManagerOf(procs, ns, d, b) ==> a == b)
    && (forall a, b :: a in agents && b in agents && a.ns == b.ns && a.domain == b.domain ==> a == b)
    && (forall a, b :: a in agents && b in agents && a.pid == b.pid ==> a == b)
    && (forall pid :: pid in procs && procs[pid].role.UnlinkDaemon? ==> !procs[pid].exited)
  }

  ghost predicate Inv(s: State) {
    && StoresOk(s.topics)
    && LiveOk(s.procs, s.topics)
    && GroupingOk(s.rules, s.wrappers, s.topics, s.nextTopic)
    && RulesOk(s.rules, s.nextRule)
    && MemoryOk(s)
    && RegistryOk(s.procs, s.agents)
  }

  /** Steps on processes, agents and rules, which concern no store. */
  predicate Administrative(op: Op) {
    || op.AddProcess? || op.BridgeShutdown? || op.CheckBridgeShutdown? || op.AddAgent?
    || op.AgentShouldExit? || op.CommitExit? || op.AddBridge? || op.AddBridgePrefix?
  }

  lemma AdministrativeStep(s: State, op: Op)
    requires Administrative(op)
    ensures var u := Step(s, op).0;
      u.topics == s.topics && u.wrappers == s.wrappers && u.nextTopic == s.nextTopic
  {
    hide DoJoinSubscriber, DoJoinPublisher, DoPublish, DoReceive, DoTake, DoRelease, DoLeaveSubscriber,
         DoLeavePublisher, DoExit, AddExact, AddPrefix, FirstFree, Assign, Free, HasDaemon, HasManager, HasAgent,
         ProcessesOf, ProcessesIn, AliveIn;
  }

  // ---------- Steps inside one store ----------

  /** The store keeps its rule and references, and no endpoint appears or changes identity. */
  ghost predicate Shrinks(t: Topic, u: Topic) {
    && u.rule == t.rule && u.refcnt == t.refcnt
    && (forall p :: p in u.pubs ==> p in t.pubs && SamePub(t.pubs[p], u.pubs[p]))
    && (forall q :: q in u.subs ==> q in t.subs && SameSub(t.subs[q], u.subs[q]))
  }

  predicate SamePub(a: Publisher, b: Publisher) {
    a.pid == b.pid && a.domain == b.domain && a.isBridge == b.isBridge
  }

  predicate SameSub(a: Subscriber, b: Subscriber) {
    a.pid == b.pid && a.domain == b.domain && a.isBridge == b.isBridge
  }

  lemma HandedOutShrinks(t: Topic, s: int, batch: seq<Entry>)
    requires s in t.subs
    ensures Shrinks(t, HandedOut(t, s, batch))
  {
  }

  lemma ReleaseShrinks(t: Topic, s: int, id: int)
    ensures Shrinks(t, Release(t, s, id).0)
  {
  }

  lemma PublishedShrinks(t: Topic, p: int, addr: int)
    requires p in t.pubs
    ensures Shrinks(t, Published(t, p, addr))
  {
    hide Filter, Reclaimable;
  }

  lemma SweepShrinks(t: Topic, gone: set<int>, doomed: set<int>)
    ensures Shrinks(t, Sweep(t, gone, doomed))
  {
    hide Count, Swept;
  }

  lemma ShrinksEndpoints(procs: map<int, Process>, wrappers: map<Cell, int>, T: int, t: Topic, u: Topic)
    requires Shrinks(t, u) && EndpointsOk(procs, t) && Homed(wrappers, T, t)
    ensures EndpointsOk(procs, u) && Homed(wrappers, T, u)
  {
  }

  lemma PutGrouping(rules: map<int, Rule>, wrappers: map<Cell, int>, topics: map<int, Topic>, nextTopic: int, T: int,
      u: Topic)
    requires GroupingOk(rules, wrappers, topics, nextTopic) && T in topics
    requires u.rule == topics[T].rule && u.refcnt == topics[T].refcnt && Homed(wrappers, T, u)
    ensures GroupingOk(rules, wrappers, topics[T := u], nextTopic)
  {
    hide Partner, Find, Homed, CellsOf;
  }

  /** Replacing a store by a consistent one that shrank from it keeps everything. */
  lemma PutKeeps(s: State, T: int, u: Topic)
    requires Inv(s) && T in s.topics && Consistent(u) && NoStaleDead(s.procs, u) && Shrinks(s.topics[T], u)
    ensures Inv(Put(s, T, u))
  {
    hide Consistent, NoStaleDead, Shrinks, EndpointsOk, MemoryOk, RegistryOk, RulesOk, PairsOk, CachedRulesOk;
    assert Homed(s.wrappers, T, s.topics[T]);
    assert u.rule == s.topics[T].rule && u.refcnt == s.topics[T].refcnt by { ShrinksKeepsRule(s.topics[T], u); }
    ShrinksEndpoints(s.procs, s.wrappers, T, s.topics[T], u);
    PutGrouping(s.rules, s.wrappers, s.topics, s.nextTopic, T, u);
    hide GroupingOk, RefcntsOk, Homed;
    MemoryElsewhere(s, Put(s, T, u));
  }

  lemma ShrinksKeepsRule(t: Topic, u: Topic)
    requires Shrinks(t, u)
    ensures u.rule == t.rule && u.refcnt == t.refcnt
  {
  }

  lemma MemoryElsewhere(s: State, u: State)
    requires MemoryOk(s) && u.procs == s.procs && u.pools == s.pools
    requires u.poolStart == s.poolStart && u.poolSize == s.poolSize
    ensures MemoryOk(u)
  {
    hide PoolsOk, LaidOut, OwnersOk;
  }

  lemma StoreFacts(s: State, T: int)
    requires Inv(s) && T in s.topics
    ensures Consistent(s.topics[T]) && NoStaleDead(s.procs, s.topics[T])
    ensures EndpointsOk(s.procs, s.topics[T]) && Homed(s.wrappers, T, s.topics[T])
    ensures T < s.nextTopic
  {
    hide Consistent, NoStaleDead, EndpointsOk, Homed, MemoryOk, RegistryOk, RulesOk, PairsOk, CachedRulesOk;
  }

  lemma HandedOutNoStaleDead(procs: map<int, Process>, t: Topic, s: int, batch: seq<Entry>)
    requires s in t.subs && NoStaleDead(procs, t)
    ensures NoStaleDead(procs, HandedOut(t, s, batch))
  {
    assert HandedOut(t, s, batch).subs.Keys == t.subs.Keys;
  }

  lemma PublishKeeps(s: State, pid: int, ns: int, name: string, p: int, addr: int, ok: bool)
    requires Inv(s) && OwnsPublisher(s, pid, ns, name, p)
    ensures Inv(DoPublish(s, pid, ns, name, p, addr, ok).0)
  {
    hide Inv, Published, Inserted, Reclaimable, WalkRunsOff;
    var u := DoPublish(s, pid, ns, name, p, addr, ok).0;
    if u != s {
      var T := StoreAt(s, pid, ns, name).value;
      var t := s.topics[T];
      StoreFacts(s, T);
      PublishedKeeps(t, p, addr);
      PublishedShrinks(t, p, addr);
      PublishedNoStaleDead(s.procs, t, p, addr);
      PutKeeps(s, T, Published(t, p, addr));
    }
  }

  lemma PublishedNoStaleDead(procs: map<int, Process>, t: Topic, p: int, addr: int)
    requires NoStaleDead(procs, t) && p in t.pubs && !Dead(procs, t.pubs[p].pid)
    ensures NoStaleDead(procs, Published(t, p, addr))
  {
    hide Filter, Reclaimable;
    var u := Published(t, p, addr);
    assert DeadPublishers(procs, u) == DeadPublishers(procs, t);
  }

  lemma ReleaseStepKeeps(s: State, pid: int, ns: int, name: string, id: int, entry: int)
    requires Inv(s)
    ensures Inv(DoRelease(s, pid, ns, name, id, entry).0)
  {
    hide Inv, Release;
    var found := StoreAt(s, pid, ns, name);
    if found.Some? {
      var t := s.topics[found.value];
      StoreFacts(s, found.value);
      ReleaseKeeps(t, id, entry);
      ReleaseShrinks(t, id, entry);
      ReleaseNoStaleDead(s.procs, t, id, entry);
      PutKeeps(s, found.value, Release(t, id, entry).0);
    }
  }

  lemma ReleaseNoStaleDead(procs: map<int, Process>, t: Topic, s: int, id: int)
    requires NoStaleDead(procs, t)
    ensures NoStaleDead(procs, Release(t, s, id).0)
  {
  }

  // ---------- Delivery ----------

  lemma MapPublishersKeeps(s: State, T: int, u: Topic, id: int, domain: nat, buffers: nat, shm: ShmFault)
    requires Inv(s) && T in s.topics && Consistent(u) && NoStaleDead(s.procs, u) && Shrinks(s.topics[T], u)
    requires id in u.subs && Alive(s.procs, u.subs[id].pid)
    ensures Inv(MapPublishers(s, T, u, id, domain, buffers, shm).0)
  {
    hide Inv, PoolsToMap, Unmappable, MappedInto, Shrinks, Consistent, NoStaleDead;
    var q := u.subs[id];
    var v := u.(subs := u.subs[id := q.(needMmap := false)]);
    MmapDone(s.procs, s.topics[T], u, id);
    PutKeeps(s, T, u);
    PutKeeps(s, T, v);
    var targets := PoolsToMap(s, u, q, domain);
    MappingKeeps(Put(s, T, u), targets * shm.done, q.pid);
    MappingKeeps(Put(s, T, v), targets, q.pid);
  }

  lemma MmapDone(procs: map<int, Process>, t: Topic, u: Topic, id: int)
    requires Consistent(u) && NoStaleDead(procs, u) && Shrinks(t, u) && id in u.subs
    ensures var v := u.(subs := u.subs[id := u.subs[id].(needMmap := false)]);
      Consistent(v) && NoStaleDead(procs, v) && Shrinks(t, v)
  {
    hide Count;
    var v := u.(subs := u.subs[id := u.subs[id].(needMmap := false)]);
    SameDomainSameSize(v.subs, u.subs);
    assert v.subs.Keys == u.subs.Keys;
    assert RefsOk(v) by {
      forall e | e in v.entries ensures HoldersOk(v.subs, e) {
        assert HoldersOk(u.subs, e);
      }
    }
  }

  /** A live process may map anything. */
  lemma MappingKeeps(s: State, targets: set<int>, pid: int)
    requires Inv(s) && Alive(s.procs, pid)
    ensures Inv(s.(pools := MappedInto(s.pools, targets, pid)))
  {
    hide StoresOk, LiveOk, GroupingOk, RulesOk, RegistryOk;
    MappedIntoFacts(s.pools, targets, pid);
  }

  lemma MappedIntoFacts(pools: seq<Pool>, targets: set<int>, pid: int)
    requires PoolsOk(pools)
    ensures var after := MappedInto(pools, targets, pid);
      && PoolsOk(after) && OthersKept(pools, after, pid)
      && (forall k :: 0 <= k < |pools| ==>
            after[k].addr == pools[k].addr && (pid in after[k].pids <==> pid in pools[k].pids || k in targets))
  {
  }

  lemma MapNothing(pools: seq<Pool>, pid: int)
    ensures MappedInto(pools, {}, pid) == pools && Unmappable(pools, {}, pid) == {}
  {
  }

  lemma ReceiveStepKeeps(s: State, pid: int, ns: int, name: string, id: int, buffers: nat, shm: ShmFault)
    requires Inv(s) && OwnsSubscriber(s, pid, ns, name, id)
    ensures Inv(DoReceive(s, pid, ns, name, id, buffers, shm).0)
  {
    hide Inv, MapPublishers, Batch, Window, HandedOut;
    var found := StoreAt(s, pid, ns, name);
    if found.Some? && id in s.topics[found.value].subs {
      var t := s.topics[found.value];
      StoreFacts(s, found.value);
      ReceiveKeeps(WorldOf(s), t, id);
      DeliveryFacts(s, found.value, id, Batch(WorldOf(s), t, t.subs[id]));
      MapPublishersKeeps(s, found.value, HandedOut(t, id, Batch(WorldOf(s), t, t.subs[id])), id,
                         DomainOf(s.procs, pid), buffers, shm);
    }
  }

  lemma TakeStepKeeps(s: State, pid: int, ns: int, name: string, id: int, same: bool, buffers: nat, shm: ShmFault)
    requires Inv(s) && OwnsSubscriber(s, pid, ns, name, id)
    ensures Inv(DoTake(s, pid, ns, name, id, same, buffers, shm).0)
  {
    hide Inv, MapPublishers, TakeCandidate, HandedOut;
    var found := StoreAt(s, pid, ns, name);
    if found.Some? && id in s.topics[found.value].subs {
      var t := s.topics[found.value];
      StoreFacts(s, found.value);
      TakeKeeps(WorldOf(s), t, id, same);
      DeliveryFacts(s, found.value, id, TakeCandidate(WorldOf(s), t, t.subs[id], same));
      MapPublishersKeeps(s, found.value, HandedOut(t, id, TakeCandidate(WorldOf(s), t, t.subs[id], same)), id,
                         DomainOf(s.procs, pid), buffers, shm);
    }
  }

  lemma DeliveryFacts(s: State, T: int, id: int, batch: seq<Entry>)
    requires Inv(s) && T in s.topics && id in s.topics[T].subs
    ensures var t := s.topics[T]; var u := HandedOut(t, id, batch);
      && NoStaleDead(s.procs, u) && Shrinks(t, u)
      && id in u.subs && u.subs[id].pid == t.subs[id].pid && Alive(s.procs, u.subs[id].pid)
  {
    hide Inv;
    StoreFacts(s, T);
    HandedOutNoStaleDead(s.procs, s.topics[T], id, batch);
    HandedOutShrinks(s.topics[T], id, batch);
  }

  // ---------- Joining ----------

  lemma AddTopicKeeps(s: State, c: Cell, topicOk: bool)
    requires Inv(s)
    ensures var (u, found) := AddTopic(s, c, topicOk);
      && Inv(u) && u.procs == s.procs
      && (found.Some? ==> c in u.wrappers && u.wrappers[c] == found.value && found.value in u.topics)
  {
    hide MemoryOk, RegistryOk;
    var (u, found) := AddTopic(s, c, topicOk);
    if c !in s.wrappers && topicOk {
      MemoryElsewhere(s, u);
      AddTopicGrouping(s, c);
      AddTopicStores(s, c);
    }
  }

  /** Adding a topic touches the wrappers and the stores only. */
  lemma AddTopicElsewhere(s: State, c: Cell, topicOk: bool)
    ensures var u := AddTopic(s, c, topicOk).0;
      u.procs == s.procs && u.agents == s.agents && u.rules == s.rules && u.pools == s.pools
  {
    hide Find, Partner;
  }

  lemma AddTopicStores(s: State, c: Cell)
    requires StoresOk(s.topics) && LiveOk(s.procs, s.topics)
    ensures StoresOk(AddTopic(s, c, true).0.topics) && LiveOk(s.procs, AddTopic(s, c, true).0.topics)
  {
    hide Partner, Find, Consistent, EndpointsOk, NoStaleDead;
    var T := AddTopic(s, c, true).1.value;
    if T in s.topics {
      RefcntIrrelevant(s.procs, s.topics[T], s.topics[T].refcnt + 1);
    }
    EmptyTopicOk(s.procs, Find(s.rules, c));
  }

  lemma EmptyTopicOk(procs: map<int, Process>, rule: Option<int>)
    ensures Consistent(EmptyTopic(rule)) && EndpointsOk(procs, EmptyTopic(rule)) && NoStaleDead(procs, EmptyTopic(rule))
  {
  }

  lemma RefcntIrrelevant(procs: map<int, Process>, t: Topic, n: nat)
    requires Consistent(t) && EndpointsOk(procs, t) && NoStaleDead(procs, t)
    ensures Consistent(t.(refcnt := n)) && EndpointsOk(procs, t.(refcnt := n)) && NoStaleDead(procs, t.(refcnt := n))
  {
    hide Count;
  }

  lemma CellsOfAdded(wrappers: map<Cell, int>, c: Cell, T: int)
    requires c !in wrappers
    ensures CellsOf(wrappers[c := T], T) == CellsOf(wrappers, T) + {c}
    ensures |CellsOf(wrappers[c := T], T)| == |CellsOf(wrappers, T)| + 1
    ensures forall U :: U != T ==> CellsOf(wrappers[c := T], U) == CellsOf(wrappers, U)
  {
    assert CellsOf(wrappers[c := T], T) == CellsOf(wrappers, T) + {c};
  }

  lemma AddTopicGrouping(s: State, c: Cell)
    requires GroupingOk(s.rules, s.wrappers, s.topics, s.nextTopic) && Disjoint(s.rules) && c !in s.wrappers
    ensures var u := AddTopic(s, c, true).0;
      GroupingOk(s.rules, u.wrappers, u.topics, u.nextTopic)
  {
    hide Find, Partner, CellsOf, Homed, Disjoint, PairsOk, RefcntsOk;
    var u := AddTopic(s, c, true).0;
    var T := u.wrappers[c];
    var d := Partner(s.rules, c);
    if d.Some? {
      PartnerInvolution(s.rules, c);
    }
    if d.Some? && d.value in s.wrappers && s.wrappers[d.value] in s.topics {
      PairsAfterSharing(s.rules, s.wrappers, c, d.value);
      CachedRulesAfterSharing(s, c, d.value);
    } else {
      PairsAfterFresh(s, c);
      CachedRulesAfterFresh(s, c);
    }
    RefcntsAfterAdd(s, c);
  }

  lemma PairsAfterSharing(rules: map<int, Rule>, wrappers: map<Cell, int>, c: Cell, d: Cell)
    requires PairsOk(rules, wrappers) && Disjoint(rules) && c !in wrappers
    requires Partner(rules, c) == Some(d) && d in wrappers
    ensures PairsOk(rules, wrappers[c := wrappers[d]])
  {
    hide Find, Partner, Disjoint;
    PartnerInvolution(rules, c);
    forall e | e in wrappers
      ensures wrappers[e] == wrappers[d] <==> Partner(rules, c) == Some(e)
      ensures Partner(rules, e) == Some(c) <==> Partner(rules, c) == Some(e)
    {
      if Partner(rules, e).Some? {
        PartnerInvolution(rules, e);
      }
    }
  }

  lemma PairsAfterFresh(s: State, c: Cell)
    requires GroupingOk(s.rules, s.wrappers, s.topics, s.nextTopic) && Disjoint(s.rules) && c !in s.wrappers
    requires var d := Partner(s.rules, c); d.None? || d.value !in s.wrappers
    ensures PairsOk(s.rules, s.wrappers[c := s.nextTopic])
  {
    hide Find, Partner, Disjoint, CellsOf, Homed;
    forall e | e in s.wrappers ensures s.wrappers[e] < s.nextTopic && Partner(s.rules, e) != Some(c) {
      assert s.wrappers[e] in s.topics;
      if Partner(s.rules, e).Some? {
        PartnerInvolution(s.rules, e);
      }
    }
  }

  lemma CachedRulesAfterSharing(s: State, c: Cell, d: Cell)
    requires CachedRulesOk(s.rules, s.wrappers, s.topics) && d in s.wrappers && Find(s.rules, d) == Find(s.rules, c)
    ensures var T := s.wrappers[d];
      CachedRulesOk(s.rules, s.wrappers[c := T], s.topics[T := s.topics[T].(refcnt := s.topics[T].refcnt + 1)])
  {
    hide Find;
  }

  lemma CachedRulesAfterFresh(s: State, c: Cell)
    requires CachedRulesOk(s.rules, s.wrappers, s.topics) && RefcntsOk(s.wrappers, s.topics, s.nextTopic)
    ensures CachedRulesOk(s.rules, s.wrappers[c := s.nextTopic], s.topics[s.nextTopic := EmptyTopic(Find(s.rules, c))])
  {
    hide Find, Homed, CellsOf;
    assert s.nextTopic !in s.topics;
  }

  lemma RefcntsAfterAdd(s: State, c: Cell)
    requires GroupingOk(s.rules, s.wrappers, s.topics, s.nextTopic) && c !in s.wrappers
    ensures var u := AddTopic(s, c, true).0;
      RefcntsOk(u.wrappers, u.topics, u.nextTopic)
  {
    hide Find, Partner, CellsOf, Homed, PairsOk;
    var u := AddTopic(s, c, true).0;
    var T := u.wrappers[c];
    CellsOfAdded(s.wrappers, c, T);
    if T == s.nextTopic {
      assert T !in s.topics;
      NoCells(s.wrappers, s.topics, T);
    }
    forall U | U in u.topics ensures Homed(u.wrappers, U, u.topics[U]) {
      HomedGrows(s.wrappers, c, T, U, if U in s.topics then s.topics[U] else u.topics[U], u.topics[U]);
    }
  }

  lemma NoCells(wrappers: map<Cell, int>, topics: map<int, Topic>, T: int)
    requires T !in topics && forall c :: c in wrappers ==> wrappers[c] in topics
    ensures CellsOf(wrappers, T) == {}
  {
  }

  lemma HomedGrows(wrappers: map<Cell, int>, c: Cell, T: int, U: int, t: Topic, u: Topic)
    requires c !in wrappers && u.pubs == t.pubs && u.subs == t.subs
    requires (u.pubs == map[] && u.subs == map[]) || Homed(wrappers, U, t)
    ensures Homed(wrappers[c := T], U, u)
  {
    assert CellsOf(wrappers, U) <= CellsOf(wrappers[c := T], U);
  }

  lemma JoinKeeps(s: State, c: Cell, T: int, u: Topic)
    requires Inv(s) && c in s.wrappers && s.wrappers[c] == T && T in s.topics
    requires Consistent(u) && EndpointsOk(s.procs, u) && NoStaleDead(s.procs, u)
    requires u.rule == s.topics[T].rule && u.refcnt == s.topics[T].refcnt
    requires forall p :: p in u.pubs ==>
      u.pubs[p].domain == c.domain || (p in s.topics[T].pubs && s.topics[T].pubs[p] == u.pubs[p])
    requires forall q :: q in u.subs ==>
      u.subs[q].domain == c.domain || (q in s.topics[T].subs && s.topics[T].subs[q].domain == u.subs[q].domain)
    ensures Inv(Put(s, T, u))
  {
    hide MemoryOk, RegistryOk, RulesOk, Consistent, EndpointsOk, NoStaleDead, PairsOk, CachedRulesOk;
    assert Homed(s.wrappers, T, s.topics[T]);
    assert c in CellsOf(s.wrappers, T);
    assert Homed(s.wrappers, T, u);
    PutGrouping(s.rules, s.wrappers, s.topics, s.nextTopic, T, u);
    MemoryElsewhere(s, Put(s, T, u));
  }

  lemma JoinSubscriberKeeps(s: State, ns: int, name: string, a: SubArgs, topicOk: bool, fault: Fault)
    requires Inv(s) && Participant(s.procs, a.pid)
    ensures Inv(DoJoinSubscriber(s, ns, name, a, topicOk, fault).0)
  {
    hide Inv, AddTopic;
    var domain := DomainOf(s.procs, a.pid);
    var c := Cell(ns, name, domain);
    var (s1, found) := AddTopic(s, c, topicOk);
    AddTopicKeeps(s, c, topicOk);
    if found.Some? {
      var t := s1.topics[found.value];
      StoreFacts(s1, found.value);
      AddSubscriberKeeps(t, domain, a, fault);
      SubscriberJoinsLive(s1.procs, t, domain, a, fault);
      JoinKeeps(s1, c, found.value, AddSubscriber(t, domain, a, fault).0);
    }
  }

  lemma SubscriberJoinsLive(procs: map<int, Process>, t: Topic, domain: nat, a: SubArgs, fault: Fault)
    requires EndpointsOk(procs, t) && NoStaleDead(procs, t) && Participant(procs, a.pid)
    requires domain == procs[a.pid].domain
    ensures var u := AddSubscriber(t, domain, a, fault).0;
      && EndpointsOk(procs, u) && NoStaleDead(procs, u) && u.rule == t.rule && u.refcnt == t.refcnt && u.pubs == t.pubs
      && (forall q :: q in u.subs ==>
           u.subs[q].domain == domain || (q in t.subs && t.subs[q].domain == u.subs[q].domain))
  {
  }

  lemma JoinPublisherKeeps(s: State, ns: int, name: string, a: PubArgs, topicOk: bool, fault: Fault)
    requires Inv(s) && Participant(s.procs, a.pid)
    ensures Inv(DoJoinPublisher(s, ns, name, a, topicOk, fault).0)
  {
    hide Inv, AddTopic;
    var domain := DomainOf(s.procs, a.pid);
    var c := Cell(ns, name, domain);
    var (s1, found) := AddTopic(s, c, topicOk);
    AddTopicKeeps(s, c, topicOk);
    if found.Some? {
      var t := s1.topics[found.value];
      StoreFacts(s1, found.value);
      AddPublisherKeeps(t, domain, a, fault);
      PublisherJoinsLive(s1.procs, t, domain, a, fault);
      JoinKeeps(s1, c, found.value, AddPublisher(t, domain, a, fault).0);
    }
  }

  lemma PublisherJoinsLive(procs: map<int, Process>, t: Topic, domain: nat, a: PubArgs, fault: Fault)
    requires EndpointsOk(procs, t) && NoStaleDead(procs, t) && Participant(procs, a.pid)
    requires domain == procs[a.pid].domain
    ensures var u := AddPublisher(t, domain, a, fault).0;
      && EndpointsOk(procs, u) && NoStaleDead(procs, u) && u.rule == t.rule && u.refcnt == t.refcnt
      && (forall p :: p in u.pubs ==> u.pubs[p].domain == domain || (p in t.pubs && t.pubs[p] == u.pubs[p]))
      && (forall q :: q in u.subs ==> q in t.subs && t.subs[q].domain == u.subs[q].domain)
  {
    var u := AddPublisher(t, domain, a, fault).0;
    assert u.subs.Keys == t.subs.Keys;
  }

  // ---------- Leaving ----------

  lemma SubscriberRemoved(s: State, T: int, id: int)
    requires Inv(s) && T in s.topics
    ensures Inv(Put(s, T, RemoveSubscriber(s.procs, s.topics[T], id)))
  {
    hide Inv, RemoveSubscriber;
    var t := s.topics[T];
    var doomed := DeadPublishers(s.procs, t);
    StoreFacts(s, T);
    RemoveSubscriberIs(s.procs, t, id);
    SweepKeeps(t, {id}, doomed);
    SweepShrinks(t, {id}, doomed);
    RemoveSubscriberNoStaleDead(s.procs, t, id);
    PutKeeps(s, T, RemoveSubscriber(s.procs, t, id));
  }

  lemma RemoveSubscriberIs(procs: map<int, Process>, t: Topic, id: int)
    ensures RemoveSubscriber(procs, t, id) == Sweep(t, {id}, DeadPublishers(procs, t))
  {
  }

  lemma PublisherRemoved(s: State, T: int, id: int)
    requires Inv(s) && T in s.topics
    ensures Inv(Put(s, T, RemovePublisher(s.topics[T], id)))
  {
    hide Inv, Sweep;
    var t := s.topics[T];
    StoreFacts(s, T);
    SweepKeeps(t, {}, {id});
    SweepShrinks(t, {}, {id});
    RemovePublisherNoStaleDead(s.procs, t, id);
    PutKeeps(s, T, RemovePublisher(t, id));
  }

  lemma LeaveSubscriberKeeps(s: State, pid: int, ns: int, name: string, id: int)
    requires Inv(s)
    ensures Inv(DoLeaveSubscriber(s, pid, ns, name, id).0)
  {
    hide Inv, RemoveSubscriber, ReleaseWrapper;
    var found := StoreAt(s, pid, ns, name);
    if found.Some? && id in s.topics[found.value].subs {
      var s1 := Put(s, found.value, RemoveSubscriber(s.procs, s.topics[found.value], id));
      SubscriberRemoved(s, found.value, id);
      ReleaseWrapperKeeps(s1, Cell(ns, name, DomainOf(s.procs, pid)));
    }
  }

  lemma LeavePublisherKeeps(s: State, pid: int, ns: int, name: string, id: int)
    requires Inv(s)
    ensures Inv(DoLeavePublisher(s, pid, ns, name, id).0)
  {
    hide Inv, RemovePublisher, ReleaseWrapper;
    var found := StoreAt(s, pid, ns, name);
    if found.Some? && id in s.topics[found.value].pubs {
      var s1 := Put(s, found.value, RemovePublisher(s.topics[found.value], id));
      PublisherRemoved(s, found.value, id);
      ReleaseWrapperKeeps(s1, Cell(ns, name, DomainOf(s.procs, pid)));
    }
  }

  lemma CellsOfRemoved(wrappers: map<Cell, int>, c: Cell)
    requires c in wrappers
    ensures CellsOf(wrappers - {c}, wrappers[c]) == CellsOf(wrappers, wrappers[c]) - {c}
    ensures |CellsOf(wrappers - {c}, wrappers[c])| == |CellsOf(wrappers, wrappers[c])| - 1
    ensures forall U :: U != wrappers[c] ==> CellsOf(wrappers - {c}, U) == CellsOf(wrappers, U)
  {
    assert CellsOf(wrappers - {c}, wrappers[c]) == CellsOf(wrappers, wrappers[c]) - {c};
  }

  lemma ReleaseWrapperKeeps(s: State, c: Cell)
    requires Inv(s) && c in s.wrappers && s.wrappers[c] in s.topics
    ensures Inv(ReleaseWrapper(s, c))
  {
    hide MemoryOk, RegistryOk, RulesOk, StoresOk, LiveOk, GroupingOk;
    var T, u := s.wrappers[c], ReleaseWrapper(s, c);
    if u != s {
      MemoryElsewhere(s, u);
      ReleaseWrapperGrouping(s, c);
      ReleaseWrapperStores(s, c);
    }
  }

  lemma ReleaseWrapperStores(s: State, c: Cell)
    requires StoresOk(s.topics) && LiveOk(s.procs, s.topics) && c in s.wrappers && s.wrappers[c] in s.topics
    ensures StoresOk(ReleaseWrapper(s, c).topics) && LiveOk(s.procs, ReleaseWrapper(s, c).topics)
  {
    hide Consistent, EndpointsOk, NoStaleDead, HasDomainEndpoint;
    var T := s.wrappers[c];
    RefcntIrrelevant(s.procs, s.topics[T], Max(0, s.topics[T].refcnt - 1));
  }

  lemma ReleaseWrapperGrouping(s: State, c: Cell)
    requires GroupingOk(s.rules, s.wrappers, s.topics, s.nextTopic)
    requires c in s.wrappers && s.wrappers[c] in s.topics && !HasDomainEndpoint(s.topics[s.wrappers[c]], c.domain)
    ensures var u := ReleaseWrapper(s, c);
      GroupingOk(s.rules, u.wrappers, u.topics, u.nextTopic)
  {
    hide Find, Partner, CellsOf, Homed, HasDomainEndpoint, RefcntsOk;
    var u := ReleaseWrapper(s, c);
    assert PairsOk(s.rules, u.wrappers);
    LastCell(s.wrappers, c);
    assert s.topics[s.wrappers[c]].refcnt == |CellsOf(s.wrappers, s.wrappers[c])|
      by { RefcntIs(s.wrappers, s.topics, s.nextTopic, s.wrappers[c]); }
    assert CachedRulesOk(s.rules, u.wrappers, u.topics);
    RefcntsAfterRelease(s, c);
  }

  lemma RefcntIs(wrappers: map<Cell, int>, topics: map<int, Topic>, nextTopic: int, T: int)
    requires RefcntsOk(wrappers, topics, nextTopic) && T in topics
    ensures topics[T].refcnt == |CellsOf(wrappers, T)|
  {
  }

  lemma RefcntsAfterRelease(s: State, c: Cell)
    requires RefcntsOk(s.wrappers, s.topics, s.nextTopic)
    requires c in s.wrappers && s.wrappers[c] in s.topics && !HasDomainEndpoint(s.topics[s.wrappers[c]], c.domain)
    ensures var u := ReleaseWrapper(s, c);
      RefcntsOk(u.wrappers, u.topics, u.nextTopic)
  {
    hide CellsOf, Homed, HasDomainEndpoint;
    var T, u := s.wrappers[c], ReleaseWrapper(s, c);
    CellsOfRemoved(s.wrappers, c);
    forall U | U in u.topics
      ensures Homed(u.wrappers, U, u.topics[U])
      ensures CellsOf(u.wrappers, U) != {}
    {
      HomedAfterRelease(s.wrappers, c, U, s.topics[U], u.topics[U]);
      NonEmpty(CellsOf(u.wrappers, U));
    }
  }

  lemma NonEmpty(s: set<Cell>)
    ensures |s| > 0 ==> s != {}
  {
  }

  /** When a store's reference count is one, its only wrapper is this one. */
  lemma LastCell(wrappers: map<Cell, int>, c: Cell)
    requires c in wrappers
    ensures |CellsOf(wrappers, wrappers[c])| <= 1 ==> forall d :: d in wrappers && wrappers[d] == wrappers[c] ==> d == c
  {
    var cells := CellsOf(wrappers, wrappers[c]);
    if |cells| <= 1 {
      forall d | d in wrappers && wrappers[d] == wrappers[c] ensures d == c {
        assert {c, d} <= cells;
        SubsetCardinality({c, d}, cells);
      }
    }
  }

  lemma HomedAfterRelease(wrappers: map<Cell, int>, c: Cell, U: int, t: Topic, u: Topic)
    requires c in wrappers && Homed(wrappers, U, t) && u.pubs == t.pubs && u.subs == t.subs
    requires U == wrappers[c] ==> !HasDomainEndpoint(t, c.domain)
    ensures Homed(wrappers - {c}, U, u)
  {
    forall p | p in u.pubs ensures exists d :: d in CellsOf(wrappers - {c}, U) && d.domain == u.pubs[p].domain {
      var d :| d in CellsOf(wrappers, U) && d.domain == t.pubs[p].domain;
      assert d in CellsOf(wrappers - {c}, U);
    }
    forall q | q in u.subs ensures exists d :: d in CellsOf(wrappers - {c}, U) && d.domain == u.subs[q].domain {
      var d :| d in CellsOf(wrappers, U) && d.domain == t.subs[q].domain;
      assert d in CellsOf(wrappers - {c}, U);
    }
  }

  lemma OnlyOneDomain(wrappers: map<Cell, int>, T: int, t: Topic, c: Cell)
    requires Homed(wrappers, T, t) && forall d :: d in CellsOf(wrappers, T) ==> d == c
    ensures forall p :: p in t.pubs ==> t.pubs[p].domain == c.domain
    ensures forall q :: q in t.subs ==> t.subs[q].domain == c.domain
  {
    hide CellsOf;
  }

  ghost predicate Vacant(t: Topic) {
    t.entries == [] && t.pubs == map[] && t.subs == map[]
  }

  lemma NobodyThere(t: Topic, domain: nat)
    requires EntriesOk(t) && !HasDomainEndpoint(t, domain)
    requires forall p :: p in t.pubs ==> t.pubs[p].domain == domain
    requires forall q :: q in t.subs ==> t.subs[q].domain == domain
    ensures Vacant(t)
  {
    hide Ascending;
    if t.pubs.Keys != {} {
      var p := AnyOf(t.pubs.Keys);
      assert false;
    }
    if t.subs.Keys != {} {
      var q := AnyOf(t.subs.Keys);
      assert false;
    }
    Inhabited(t.entries);
  }

  /**
    Where every endpoint's domain has a wrapper on the store and the references are counted, the
    release of the last wrapper finds the store empty. This is so wherever a wrapper is released, in
    the middle of the exit walk too.
   */
  lemma LastReleaseFindsNothing(wrappers: map<Cell, int>, c: Cell, t: Topic)
    requires EntriesOk(t) && c in wrappers && Homed(wrappers, wrappers[c], t)
    requires t.refcnt == |CellsOf(wrappers, wrappers[c])| <= 1 && !HasDomainEndpoint(t, c.domain)
    ensures Vacant(t)
  {
    hide EntriesOk, Homed, HasDomainEndpoint;
    LastCell(wrappers, c);
    OnlyOneDomain(wrappers, wrappers[c], t, c);
    NobodyThere(t, c.domain);
  }

  lemma ReferencesCounted(s: State, T: int)
    requires Inv(s) && T in s.topics
    ensures s.topics[T].refcnt == |CellsOf(s.wrappers, T)| && Homed(s.wrappers, T, s.topics[T])
    ensures EntriesOk(s.topics[T])
  {
    hide LiveOk, MemoryOk, RegistryOk, RulesOk, PairsOk, CachedRulesOk, EntriesOk, Homed, CellsOf;
  }

  // ---------- Registrations ----------

  /** The rule a store caches does not change while one of its cells is occupied. */
  lemma RuleOfStore(s: State, after: map<int, Rule>, T: int)
    requires Inv(s) && RegistrationSafe(s.rules, after, s.wrappers.Keys) && T in s.topics
    ensures var rule := s.topics[T].rule;
      rule.Some? ==> rule.value in s.rules && rule.value in after && after[rule.value] == s.rules[rule.value]
  {
    hide StoresOk, LiveOk, MemoryOk, RegistryOk, PairsOk, Homed, Find;
    assert CellsOf(s.wrappers, T) != {};
    var c := AnyOf(CellsOf(s.wrappers, T));
    assert s.topics[T].rule == Find(s.rules, c);
    if s.topics[T].rule.Some? {
      FindIs(s.rules, c, s.topics[T].rule.value);
    }
  }
}
