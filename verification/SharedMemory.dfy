// A subscriber that holds a message has the message's memory mapped, and keeps it mapped.

module SharedMemory {
  import opened Base
  import opened Seqs
  import opened Sets
  import opened TopicModel
  import opened StoreInvariant
  import opened DomainRules
  import opened Mempools
  import opened KernelModel
  import opened KernelInvariant
  import opened ProcessInvariant

  /** Process `pid` is in the mapped list of the pool that contains `addr`. */
  ghost predicate MapsAddr(pools: seq<Pool>, size: int, pid: int, addr: int) {
    exists k :: 0 <= k < |pools| && InPool(pools[k], size, addr) && pid in pools[k].pids
  }

  predicate MapsPoolOf(procs: map<int, Process>, pools: seq<Pool>, pid: int, owner: int) {
    owner in procs && procs[owner].pool < |pools| && pid in pools[procs[owner].pool].pids
  }

  /** Messages of live publishers lie in the publisher process's pool. */
  ghost predicate Placed(procs: map<int, Process>, pools: seq<Pool>, size: int, t: Topic) {
    forall e :: e in t.entries && e.publisher in t.pubs && !Dead(procs, t.pubs[e.publisher].pid) ==>
      var k := procs[t.pubs[e.publisher].pid].pool;
      k < |pools| && InPool(pools[k], size, e.addr)
  }

  /** Whoever holds a message maps it. */
  ghost predicate HeldIsMapped(pools: seq<Pool>, size: int, t: Topic) {
    forall e, q :: e in t.entries && q in e.refs && q in t.subs ==> MapsAddr(pools, size, t.subs[q].pid, e.addr)
  }

  /** A subscriber that does not ask for mappings has those of every live publisher that may deliver to it. */
  ghost predicate QuietIsMapped(procs: map<int, Process>, rules: map<int, Rule>, pools: seq<Pool>, t: Topic) {
    forall q, p :: q in t.subs && !t.subs[q].needMmap && p in t.pubs && !Dead(procs, t.pubs[p].pid)
      && t.pubs[p].pid != t.subs[q].pid && Allows(rules, t.rule, t.pubs[p], t.subs[q])
      ==> MapsPoolOf(procs, pools, t.subs[q].pid, t.pubs[p].pid)
  }

  ghost predicate ShmStore(procs: map<int, Process>, rules: map<int, Rule>, pools: seq<Pool>, size: int, t: Topic) {
    Placed(procs, pools, size, t) && HeldIsMapped(pools, size, t) && QuietIsMapped(procs, rules, pools, t)
  }

  ghost predicate ShmOk(s: State) {
    forall T :: T in s.topics ==> ShmStore(s.procs, s.rules, s.pools, s.poolSize, s.topics[T])
  }

  /** The mapping stage of a receive or take failed after messages were handed out. */
  predicate MappingFailed(r: Reply) {
    r.DeliveryReply? && r.result.Err? && r.result.error != EINVAL
  }

  // ---------- What one store's property depends on ----------

  /** Entries keep publisher and address and lose references only; endpoints shrink, flags stay. */
  ghost predicate Weaker(t: Topic, u: Topic) {
    && Shrinks(t, u)
    && (forall q :: q in u.subs ==> u.subs[q].needMmap == t.subs[q].needMmap)
    && (forall e :: e in u.entries ==> exists d :: d in t.entries && Loses(d, e))
  }

  predicate Loses(d: Entry, e: Entry) {
    d.publisher == e.publisher && d.addr == e.addr && e.refs <= d.refs
  }

  lemma WeakerShm(procs: map<int, Process>, rules: map<int, Rule>, pools: seq<Pool>, size: int, t: Topic, u: Topic)
    requires ShmStore(procs, rules, pools, size, t) && Weaker(t, u)
    ensures ShmStore(procs, rules, pools, size, u)
  {
    hide InPool, MapsAddr, MapsPoolOf;
    assert HeldIsMapped(pools, size, u);
    assert Placed(procs, pools, size, u);
    forall q, p | q in u.subs && p in u.pubs
      ensures q in t.subs && p in t.pubs
      ensures Allows(rules, u.rule, u.pubs[p], u.subs[q]) == Allows(rules, t.rule, t.pubs[p], t.subs[q])
    {
      assert SameSub(t.subs[q], u.subs[q]) && SamePub(t.pubs[p], u.pubs[p]);
    }
  }

  /** Nobody of the store loses a mapping, and no publisher comes back to life or moves. */
  ghost predicate MappingsKept(procs: map<int, Process>, procs': map<int, Process>,
                               pools: seq<Pool>, pools': seq<Pool>, t: Topic)
  {
    && |pools'| == |pools|
    && (forall k :: 0 <= k < |pools| ==> pools'[k].addr == pools[k].addr)
    && (forall q, k :: q in t.subs && 0 <= k < |pools| && t.subs[q].pid in pools[k].pids ==>
         t.subs[q].pid in pools'[k].pids)
    && (forall p :: p in t.pubs && !Dead(procs', t.pubs[p].pid) ==>
          !Dead(procs, t.pubs[p].pid) && procs'[t.pubs[p].pid].pool == procs[t.pubs[p].pid].pool)
  }

  lemma MappingsKeptShm(procs: map<int, Process>, procs': map<int, Process>, rules: map<int, Rule>,
                        pools: seq<Pool>, pools': seq<Pool>, size: int, t: Topic)
    requires ShmStore(procs, rules, pools, size, t) && MappingsKept(procs, procs', pools, pools', t)
    ensures ShmStore(procs', rules, pools', size, t)
  {
    hide Allows;
    assert Placed(procs', pools', size, t);
    forall e, q | e in t.entries && q in e.refs && q in t.subs
      ensures MapsAddr(pools', size, t.subs[q].pid, e.addr)
    {
      var k :| 0 <= k < |pools| && InPool(pools[k], size, e.addr) && t.subs[q].pid in pools[k].pids;
      assert InPool(pools'[k], size, e.addr);
    }
  }

  lemma ShmPut(s: State, T: int, u: Topic)
    requires ShmOk(s) && T in s.topics && ShmStore(s.procs, s.rules, s.pools, s.poolSize, u)
    ensures ShmOk(Put(s, T, u))
  {
    hide ShmStore;
  }

  lemma ShmAt(s: State, T: int)
    requires ShmOk(s) && T in s.topics
    ensures ShmStore(s.procs, s.rules, s.pools, s.poolSize, s.topics[T])
  {
    hide ShmStore;
  }

  // ---------- Publish, release, leave ----------

  lemma PublishShm(s: State, pid: int, ns: int, name: string, p: int, addr: int, ok: bool)
    requires Inv(s) && ShmOk(s) && OwnsPublisher(s, pid, ns, name, p)
    ensures ShmOk(DoPublish(s, pid, ns, name, p, addr, ok).0)
  {
    hide Inv, Published, Inserted, Reclaimable, WalkRunsOff, ShmStore;
    var u := DoPublish(s, pid, ns, name, p, addr, ok).0;
    if u != s {
      var T := StoreAt(s, pid, ns, name).value;
      StoreFacts(s, T);
      PublishedShm(s.procs, s.rules, s.pools, s.poolSize, s.topics[T], p, addr);
      ShmPut(s, T, Published(s.topics[T], p, addr));
    }
  }

  lemma PublishedShm(procs: map<int, Process>, rules: map<int, Rule>, pools: seq<Pool>, size: int, t: Topic, p: int,
      addr: int)
    requires Consistent(t) && ShmStore(procs, rules, pools, size, t) && p in t.pubs && !Dead(procs, t.pubs[p].pid)
    requires var k := procs[t.pubs[p].pid].pool; k < |pools| && InPool(pools[k], size, addr)
    ensures ShmStore(procs, rules, pools, size, Published(t, p, addr))
  {
    hide InPool, MapsAddr, MapsPoolOf, DeliveryAllowed, Consistent, Filter, Reclaimable;
    var t1 := Inserted(t, p, addr);
    assert ShmStore(procs, rules, pools, size, t1) by {
      assert Placed(procs, pools, size, t1);
      assert HeldIsMapped(pools, size, t1);
      assert QuietIsMapped(procs, rules, pools, t1);
    }
    var u := Published(t, p, addr);
    FilterMembers(t1.entries, NotAmong(Reclaimable(t1, p)));
    assert forall e :: e in u.entries ==> e in t1.entries && Loses(e, e);
    assert Weaker(t1, u);
    WeakerShm(procs, rules, pools, size, t1, u);
  }

  lemma ReleaseShm(s: State, pid: int, ns: int, name: string, id: int, entry: int)
    requires ShmOk(s)
    ensures ShmOk(DoRelease(s, pid, ns, name, id, entry).0)
  {
    hide ShmStore, Release;
    var found := StoreAt(s, pid, ns, name);
    if found.Some? {
      var u := Release(s.topics[found.value], id, entry).0;
      ShmAt(s, found.value);
      ReleaseWeaker(s.topics[found.value], id, entry);
      WeakerShm(s.procs, s.rules, s.pools, s.poolSize, s.topics[found.value], u);
      ShmPut(s, found.value, u);
    }
  }

  lemma ReleaseWeaker(t: Topic, id: int, entry: int)
    ensures Weaker(t, Release(t, id, entry).0)
  {
    var u := Release(t, id, entry).0;
    ReleaseShrinks(t, id, entry);
    forall e | e in u.entries ensures exists d :: d in t.entries && Loses(d, e) {
      var i :| 0 <= i < |u.entries| && u.entries[i] == e;
      assert t.entries[i] in t.entries && Loses(t.entries[i], e);
    }
  }

  lemma SweepWeaker(t: Topic, gone: set<int>, doomed: set<int>)
    ensures Weaker(t, Sweep(t, gone, doomed))
  {
    hide Swept, Count;
    var u := Sweep(t, gone, doomed);
    SweepShrinks(t, gone, doomed);
    forall e | e in u.entries ensures exists d :: d in t.entries && Loses(d, e) {
      SweptMember(t.entries, gone, doomed, e);
      var i :| 0 <= i < |t.entries| && e == t.entries[i].(refs := t.entries[i].refs - gone);
      assert t.entries[i] in t.entries && Loses(t.entries[i], e);
    }
  }

  lemma LeaveShm(s: State, T: int, c: Cell, gone: set<int>, doomed: set<int>)
    requires ShmOk(s) && T in s.topics && c in s.wrappers && s.wrappers[c] == T
    ensures ShmOk(ReleaseWrapper(Put(s, T, Sweep(s.topics[T], gone, doomed)), c))
  {
    hide ShmStore, Sweep, HasDomainEndpoint;
    var u := Sweep(s.topics[T], gone, doomed);
    SweepWeaker(s.topics[T], gone, doomed);
    WeakerShm(s.procs, s.rules, s.pools, s.poolSize, s.topics[T], u);
    RefcntShm(s, u, Max(0, u.refcnt - 1));
  }

  lemma RefcntShm(s: State, t: Topic, n: nat)
    requires ShmStore(s.procs, s.rules, s.pools, s.poolSize, t)
    ensures ShmStore(s.procs, s.rules, s.pools, s.poolSize, t.(refcnt := n))
  {
    hide InPool, MapsAddr, MapsPoolOf, Allows;
  }

  // ---------- Joining ----------

  lemma AddTopicShm(s: State, c: Cell, topicOk: bool)
    requires ShmOk(s)
    ensures ShmOk(AddTopic(s, c, topicOk).0)
    ensures AddTopic(s, c, topicOk).0.pools == s.pools && AddTopic(s, c, topicOk).0.procs == s.procs
  {
    hide ShmStore, Find, Partner;
    var (u, found) := AddTopic(s, c, topicOk);
    if found.Some? && found.value in s.topics {
      ShmAt(s, found.value);
      RefcntShm(s, s.topics[found.value], s.topics[found.value].refcnt + 1);
    }
    EmptyShm(s, Find(s.rules, c));
  }

  lemma EmptyShm(s: State, rule: Option<int>)
    ensures ShmStore(s.procs, s.rules, s.pools, s.poolSize, EmptyTopic(rule))
  {
  }

  lemma JoinSubscriberShm(s: State, ns: int, name: string, a: SubArgs, topicOk: bool, fault: Fault)
    requires Inv(s) && ShmOk(s)
    ensures ShmOk(DoJoinSubscriber(s, ns, name, a, topicOk, fault).0)
  {
    hide Inv, AddTopic, ShmStore;
    var domain := DomainOf(s.procs, a.pid);
    var c := Cell(ns, name, domain);
    var (s1, found) := AddTopic(s, c, topicOk);
    AddTopicKeeps(s, c, topicOk);
    AddTopicShm(s, c, topicOk);
    if found.Some? {
      StoreFacts(s1, found.value);
      NewSubscriberShm(s1, s1.topics[found.value], domain, a, fault);
      ShmPut(s1, found.value, AddSubscriber(s1.topics[found.value], domain, a, fault).0);
    }
  }

  lemma NewSubscriberShm(s: State, t: Topic, domain: nat, a: SubArgs, fault: Fault)
    requires Consistent(t) && ShmStore(s.procs, s.rules, s.pools, s.poolSize, t)
    ensures ShmStore(s.procs, s.rules, s.pools, s.poolSize, AddSubscriber(t, domain, a, fault).0)
  {
    hide InPool, MapsAddr, MapsPoolOf, Allows, Count, Ascending;
    assert t.nextId !in t.subs;
    forall e | e in t.entries ensures t.nextId !in e.refs {
      assert HoldersOk(t.subs, e);
    }
  }

  lemma JoinPublisherShm(s: State, ns: int, name: string, a: PubArgs, topicOk: bool, fault: Fault)
    requires Inv(s) && ShmOk(s)
    ensures ShmOk(DoJoinPublisher(s, ns, name, a, topicOk, fault).0)
  {
    hide Inv, AddTopic, ShmStore;
    var domain := DomainOf(s.procs, a.pid);
    var c := Cell(ns, name, domain);
    var (s1, found) := AddTopic(s, c, topicOk);
    AddTopicKeeps(s, c, topicOk);
    AddTopicShm(s, c, topicOk);
    if found.Some? {
      StoreFacts(s1, found.value);
      NewPublisherShm(s1, s1.topics[found.value], domain, a, fault);
      ShmPut(s1, found.value, AddPublisher(s1.topics[found.value], domain, a, fault).0);
    }
  }

  /** A new publisher makes every subscriber ask again, so nobody is silently unmapped. */
  lemma NewPublisherShm(s: State, t: Topic, domain: nat, a: PubArgs, fault: Fault)
    requires Consistent(t) && ShmStore(s.procs, s.rules, s.pools, s.poolSize, t)
    ensures ShmStore(s.procs, s.rules, s.pools, s.poolSize, AddPublisher(t, domain, a, fault).0)
  {
    hide InPool, MapsAddr, MapsPoolOf, Allows, Count, Ascending;
    assert t.nextId !in t.pubs;
    forall e | e in t.entries ensures e.publisher != t.nextId {}
  }

  // ---------- Delivery ----------

  /** What a successful delivery leaves behind: handed-out messages are mapped, and the subscriber may go quiet. */
  lemma DeliveryShm(s: State, T: int, id: int, batch: seq<Entry>, domain: nat, buffers: nat, shm: ShmFault)
    requires Inv(s) && ShmOk(s) && T in s.topics && id in s.topics[T].subs
    requires domain == s.topics[T].subs[id].domain
    requires forall e :: e in batch ==> Deliverable(WorldOf(s), s.topics[T], s.topics[T].subs[id], e)
    requires MapPublishers(s, T, HandedOut(s.topics[T], id, batch), id, domain, buffers, shm).1.Ok?
    ensures ShmOk(MapPublishers(s, T, HandedOut(s.topics[T], id, batch), id, domain, buffers, shm).0)
  {
    hide Inv, ShmStore, Deliverable, HandedOut, PoolsToMap, MappedInto, Unmappable, MappingsKept;
    var t := s.topics[T];
    var q := t.subs[id];
    var u := HandedOut(t, id, batch);
    StoreFacts(s, T);
    DeliveryFacts(s, T, id, batch);
    HandedOutSub(t, id, batch);
    var targets := if q.needMmap then PoolsToMap(s, u, q, domain) else {};
    PoolsToMapSame(s, t, u, id, batch, domain);
    var pools := MappedInto(s.pools, targets, q.pid);
    var s1 := MapPublishers(s, T, u, id, domain, buffers, shm).0;
    assert PoolsOk(s.pools) && OwnersOk(s.procs, s.pools) by { MemoryFacts(s); }
    MappedIntoFacts(s.pools, targets, q.pid);
    MapNothing(s.pools, q.pid);
    assert s1.pools == pools;
    forall U | U in s.topics
      ensures ShmStore(s.procs, s.rules, pools, s.poolSize, s.topics[U])
    {
      MappedIntoKeeps(s.procs, s.pools, targets, q.pid, s.topics[U]);
      MappingsKeptShm(s.procs, s.procs, s.rules, s.pools, pools, s.poolSize, s.topics[U]);
    }
    AllTargetsMapped(s, t, id, domain, targets, pools);
    HandedOutShm(s, t, id, batch, pools, s1.topics[T]);
  }

  lemma MemoryFacts(s: State)
    requires Inv(s)
    ensures PoolsOk(s.pools) && OwnersOk(s.procs, s.pools)
  {
  }

  lemma HandedOutSub(t: Topic, id: int, batch: seq<Entry>)
    requires id in t.subs
    ensures var u := HandedOut(t, id, batch);
      && u.subs.Keys == t.subs.Keys && u.pubs == t.pubs && u.rule == t.rule
      && u.subs[id] == t.subs[id].(latest := u.subs[id].latest)
      && (forall r :: r in t.subs && r != id ==> u.subs[r] == t.subs[r])
      && u.entries == (if batch == [] then t.entries else Marked(t.entries, batch, id))
  {
  }

  lemma PoolsToMapSame(s: State, t: Topic, u: Topic, id: int, batch: seq<Entry>, domain: nat)
    requires id in t.subs && id in u.subs && u.pubs == t.pubs && u.rule == t.rule
    requires u.subs[id] == t.subs[id].(latest := u.subs[id].latest)
    ensures PoolsToMap(s, u, u.subs[id], domain) == PoolsToMap(s, t, t.subs[id], domain)
    ensures PoolsToMap(s, u, t.subs[id], domain) == PoolsToMap(s, t, t.subs[id], domain)
  {
  }

  lemma MappedIntoKeeps(procs: map<int, Process>, pools: seq<Pool>, targets: set<int>, pid: int, t: Topic)
    requires PoolsOk(pools)
    ensures MappingsKept(procs, procs, pools, MappedInto(pools, targets, pid), t)
  {
    hide MappedInto;
    MappedIntoFacts(pools, targets, pid);
  }

  /** After the mapping stage the subscriber maps every live publisher that may deliver to it. */
  ghost predicate FullyMapped(s: State, t: Topic, id: int, pools: seq<Pool>)
    requires id in t.subs
  {
    forall p :: p in t.pubs && !Dead(s.procs, t.pubs[p].pid) && Allows(s.rules, t.rule, t.pubs[p], t.subs[id])
      ==> MapsPoolOf(s.procs, pools, t.subs[id].pid, t.pubs[p].pid)
  }

  lemma AllTargetsMapped(s: State, t: Topic, id: int, domain: nat, targets: set<int>, pools: seq<Pool>)
    requires id in t.subs && domain == t.subs[id].domain && ShmStore(s.procs, s.rules, s.pools, s.poolSize, t)
    requires OwnersOk(s.procs, s.pools) && PoolsOk(s.pools)
    requires targets == if t.subs[id].needMmap then PoolsToMap(s, t, t.subs[id], domain) else {}
    requires pools == MappedInto(s.pools, targets, t.subs[id].pid)
    ensures FullyMapped(s, t, id, pools)
  {
    hide PoolOk, InPool, MappedInto, Allows, Placed, HeldIsMapped;
    var q := t.subs[id];
    assert q.(domain := domain) == q;
    MappedIntoFacts(s.pools, targets, q.pid);
    forall p | p in t.pubs && !Dead(s.procs, t.pubs[p].pid) && Allows(s.rules, t.rule, t.pubs[p], q)
      ensures MapsPoolOf(s.procs, pools, q.pid, t.pubs[p].pid)
    {
      assert Alive(s.procs, t.pubs[p].pid);
      if q.needMmap && t.pubs[p].pid != q.pid {
        assert s.procs[t.pubs[p].pid].pool in targets;
      }
    }
  }

  lemma HandedOutShm(s: State, t: Topic, id: int, batch: seq<Entry>, pools: seq<Pool>, v: Topic)
    requires id in t.subs && ShmStore(s.procs, s.rules, pools, s.poolSize, t)
    requires forall e :: e in batch ==> Deliverable(WorldOf(s), t, t.subs[id], e)
    requires FullyMapped(s, t, id, pools)
    requires v.rule == t.rule && v.pubs == t.pubs && v.subs.Keys == t.subs.Keys
    requires forall r :: r in t.subs && r != id ==> v.subs[r] == t.subs[r]
    requires v.subs[id] == t.subs[id].(latest := v.subs[id].latest, needMmap := false)
    requires v.entries == if batch == [] then t.entries else Marked(t.entries, batch, id)
    ensures ShmStore(s.procs, s.rules, pools, s.poolSize, v)
  {
    hide InPool, MapsPoolOf, DeliveryAllowed, MapsAddr;
    forall e | e in v.entries
      ensures e.publisher in v.pubs && !Dead(s.procs, v.pubs[e.publisher].pid) ==>
        var k := s.procs[v.pubs[e.publisher].pid].pool; k < |pools| && InPool(pools[k], s.poolSize, e.addr)
      ensures forall r :: r in e.refs && r in v.subs ==> MapsAddr(pools, s.poolSize, v.subs[r].pid, e.addr)
    {
      var i :| 0 <= i < |v.entries| && v.entries[i] == e;
      var d := t.entries[i];
      assert d in t.entries && d.publisher == e.publisher && d.addr == e.addr;
      if d in batch {
        assert e.refs == d.refs + {id} || e == d;
        HandedEntryMapped(s, t, id, pools, d);
      }
    }
    forall p | p in v.pubs && Allows(s.rules, v.rule, v.pubs[p], v.subs[id])
      ensures Allows(s.rules, t.rule, t.pubs[p], t.subs[id])
    {}
  }

  lemma HandedEntryMapped(s: State, t: Topic, id: int, pools: seq<Pool>, d: Entry)
    requires id in t.subs && Placed(s.procs, pools, s.poolSize, t) && FullyMapped(s, t, id, pools)
    requires d in t.entries && Deliverable(WorldOf(s), t, t.subs[id], d)
    ensures MapsAddr(pools, s.poolSize, t.subs[id].pid, d.addr)
  {
    var owner := t.pubs[d.publisher].pid;
    var k := s.procs[owner].pool;
    assert InPool(pools[k], s.poolSize, d.addr);
  }

  lemma ReceiveShm(s: State, pid: int, ns: int, name: string, id: int, buffers: nat, shm: ShmFault)
    requires Inv(s) && ShmOk(s) && OwnsSubscriber(s, pid, ns, name, id)
    requires !MappingFailed(DoReceive(s, pid, ns, name, id, buffers, shm).1)
    ensures ShmOk(DoReceive(s, pid, ns, name, id, buffers, shm).0)
  {
    hide Inv, ShmOk, HandedOut, Deliverable, Batch;
    var found := StoreAt(s, pid, ns, name);
    if found.Some? && id in s.topics[found.value].subs {
      var t := s.topics[found.value];
      StoreFacts(s, found.value);
      BatchDeliverable(WorldOf(s), t, id);
      OwnDomain(s, t, id, pid);
      DeliveryFacts(s, found.value, id, Batch(WorldOf(s), t, t.subs[id]));
      MappingErrors(s, found.value, HandedOut(t, id, Batch(WorldOf(s), t, t.subs[id])), id, DomainOf(s.procs, pid),
          buffers, shm);
      DeliveryShm(s, found.value, id, Batch(WorldOf(s), t, t.subs[id]), DomainOf(s.procs, pid), buffers, shm);
    }
  }

  lemma TakeShm(s: State, pid: int, ns: int, name: string, id: int, same: bool, buffers: nat, shm: ShmFault)
    requires Inv(s) && ShmOk(s) && OwnsSubscriber(s, pid, ns, name, id)
    requires !MappingFailed(DoTake(s, pid, ns, name, id, same, buffers, shm).1)
    ensures ShmOk(DoTake(s, pid, ns, name, id, same, buffers, shm).0)
  {
    hide Inv, ShmOk, HandedOut, Deliverable, TakeCandidate;
    var found := StoreAt(s, pid, ns, name);
    if found.Some? && id in s.topics[found.value].subs {
      var t := s.topics[found.value];
      StoreFacts(s, found.value);
      CandidateDeliverable(WorldOf(s), t, id, same);
      OwnDomain(s, t, id, pid);
      DeliveryFacts(s, found.value, id, TakeCandidate(WorldOf(s), t, t.subs[id], same));
      MappingErrors(s, found.value, HandedOut(t, id, TakeCandidate(WorldOf(s), t, t.subs[id], same)), id,
          DomainOf(s.procs, pid), buffers, shm);
      DeliveryShm(s, found.value, id, TakeCandidate(WorldOf(s), t, t.subs[id], same), DomainOf(s.procs, pid), buffers,
          shm);
    }
  }

  lemma MappingErrors(s: State, T: int, u: Topic, id: int, domain: nat, buffers: nat, shm: ShmFault)
    requires id in u.subs
    ensures var r := MapPublishers(s, T, u, id, domain, buffers, shm).1;
      r.Err? ==> r.error != EINVAL
  {
    hide PoolsToMap, MappedInto, Unmappable;
  }

  lemma OwnDomain(s: State, t: Topic, id: int, pid: int)
    requires EndpointsOk(s.procs, t) && id in t.subs && t.subs[id].pid == pid
    ensures t.subs[id].domain == DomainOf(s.procs, pid)
  {
  }

  lemma BatchDeliverable(w: World, t: Topic, id: int)
    requires Consistent(t) && id in t.subs
    ensures forall e :: e in Batch(w, t, t.subs[id]) ==> Deliverable(w, t, t.subs[id], e)
  {
    hide Consistent, Newest, Deliverable;
    var window := Window(w, t, t.subs[id]);
    NewestTakeable(w, t, id, t.subs[id].latest + 1, Min(MAX_RECEIVE_NUM, |window|));
    assert forall e :: e in Batch(w, t, t.subs[id]) ==> e in window;
  }

  lemma CandidateDeliverable(w: World, t: Topic, id: int, same: bool)
    requires Consistent(t) && id in t.subs
    ensures forall e :: e in TakeCandidate(w, t, t.subs[id], same) ==> Deliverable(w, t, t.subs[id], e)
  {
    hide Consistent, Newest, Deliverable;
    var floor := TakeFloor(t.subs[id], same);
    var newest := Newest(w, t, t.subs[id], floor);
    NewestTakeable(w, t, id, floor, Min(1, |newest|));
    assert forall e :: e in TakeCandidate(w, t, t.subs[id], same) ==> e in newest;
  }

  // ---------- Processes, rules ----------

  /** Steps that touch only the process table and the pools. */
  lemma ElsewhereShm(s: State, u: State)
    requires ShmOk(s) && u.topics == s.topics && u.rules == s.rules && u.poolSize == s.poolSize
    requires forall T :: T in s.topics ==> MappingsKept(s.procs, u.procs, s.pools, u.pools, s.topics[T])
    ensures ShmOk(u)
  {
    hide ShmStore, MappingsKept;
    forall T | T in u.topics ensures ShmStore(u.procs, u.rules, u.pools, u.poolSize, u.topics[T]) {
      MappingsKeptShm(s.procs, u.procs, s.rules, s.pools, u.pools, s.poolSize, s.topics[T]);
    }
  }

  lemma AddProcessShm(s: State, pid: int, ns: int, role: Role, domain: nat, ok: bool)
    requires Inv(s) && ShmOk(s) && Allowed(s, AddProcess(pid, ns, role, domain, ok))
    ensures ShmOk(DoAddProcess(s, pid, ns, role, domain, ok).0)
  {
    hide ShmOk, FirstFree, Assign, HasDaemon, HasManager, HasAgent, Consistent, NoStaleDead, GroupingOk, RulesOk,
         RegistryOk, LaidOut, OwnersOk;
    var u := DoAddProcess(s, pid, ns, role, domain, ok).0;
    if u.procs != s.procs {
      AssignKeeps(s.pools, pid);
      AssignLayout(s.pools, pid);
      forall T | T in s.topics ensures MappingsKept(s.procs, u.procs, s.pools, u.pools, s.topics[T]) {
        assert EndpointsOk(s.procs, s.topics[T]);
      }
      ElsewhereShm(s, u);
    }
  }

  lemma DemotedShm(s: State, pid: int)
    requires ShmOk(s)
    ensures ShmOk(s.(procs := Demoted(s.procs, pid)))
  {
    hide ShmOk;
    ElsewhereShm(s, s.(procs := Demoted(s.procs, pid)));
  }

  lemma CommitShm(s: State, ns: int, g: int, caller: int)
    requires Inv(s) && ShmOk(s) && Allowed(s, CommitExit(ns, g, caller))
    ensures ShmOk(DoCommitExit(s, ns, g, caller).0)
  {
    hide ShmOk, Free, ProcessesOf, Consistent, NoStaleDead, GroupingOk, RulesOk, RegistryOk, LaidOut, OwnersOk, PoolOk;
    var u := DoCommitExit(s, ns, g, caller).0;
    FreeKeeps(s.pools, caller);
    FreeLength(s.pools, caller);
    forall T | T in s.topics ensures MappingsKept(s.procs, u.procs, s.pools, u.pools, s.topics[T]) {
      assert EndpointsOk(s.procs, s.topics[T]);
    }
    ElsewhereShm(s, u);
  }

  lemma ExitShm(s: State, pid: int)
    requires Inv(s) && ShmOk(s)
    ensures ShmOk(DoExit(s, pid))
  {
    hide Inv, ShmStore, Exited, Exit, InUse, CellsOf, Free;
    if pid in s.procs {
      var procs := Exited(s.procs, pid);
      var u := DoExit(s, pid);
      forall T | T in u.topics ensures ShmStore(u.procs, u.rules, u.pools, u.poolSize, u.topics[T]) {
        StoreFacts(s, T);
        ExitStoreShm(s, s.topics[T], pid);
        RefcntShm(s.(procs := procs, pools := u.pools), Exit(procs, s.topics[T], pid), u.topics[T].refcnt);
      }
    }
  }

  lemma ExitStoreShm(s: State, t: Topic, pid: int)
    requires Inv(s) && pid in s.procs && EndpointsOk(s.procs, t)
    requires ShmStore(s.procs, s.rules, s.pools, s.poolSize, t)
    ensures ShmStore(Exited(s.procs, pid), s.rules, Free(s.pools, pid), s.poolSize, Exit(Exited(s.procs, pid), t, pid))
  {
    hide Inv, ShmStore, Sweep, Free, Exited;
    var procs := Exited(s.procs, pid);
    var gone := SubscribersOf(t, pid);
    var doomed := if gone == {} then PublishersOf(t, pid) else DeadPublishers(procs, t);
    var u := Sweep(t, gone, doomed);
    SweepWeaker(t, gone, doomed);
    WeakerShm(s.procs, s.rules, s.pools, s.poolSize, t, u);
    SweepSubs(t, gone, doomed);
    SweepShrinks(t, gone, doomed);
    MemoryFacts(s);
    FreeKeeps(s.pools, pid);
    FreeLength(s.pools, pid);
    ExitedFacts(s.procs, pid);
    assert MappingsKept(s.procs, procs, s.pools, Free(s.pools, pid), u);
    MappingsKeptShm(s.procs, procs, s.rules, s.pools, Free(s.pools, pid), s.poolSize, u);
  }

  lemma RegistrationShm(s: State, after: map<int, Rule>)
    requires Inv(s) && ShmOk(s) && RegistrationSafe(s.rules, after, s.wrappers.Keys)
    ensures ShmOk(s.(rules := after, nextRule := s.nextRule + 1))
  {
    hide ShmStore, RegistrationSafe, Inv;
    forall T | T in s.topics ensures ShmStore(s.procs, after, s.pools, s.poolSize, s.topics[T]) {
      RuleOfStore(s, after, T);
      SameRuleShm(s.procs, s.rules, after, s.pools, s.poolSize, s.topics[T]);
    }
  }

  lemma SameRuleShm(procs: map<int, Process>, rules: map<int, Rule>, after: map<int, Rule>, pools: seq<Pool>,
      size: int, t: Topic)
    requires ShmStore(procs, rules, pools, size, t)
    requires t.rule.Some? ==>
      t.rule.value in rules && t.rule.value in after && after[t.rule.value] == rules[t.rule.value]
    ensures ShmStore(procs, after, pools, size, t)
  {
    hide Placed, HeldIsMapped, MapsPoolOf;
    forall p, q | p in t.pubs && q in t.subs
      ensures Allows(after, t.rule, t.pubs[p], t.subs[q]) == Allows(rules, t.rule, t.pubs[p], t.subs[q])
    {}
  }

  // ---------- Every step, every run ----------

  lemma StepShm(s: State, op: Op)
    requires Inv(s) && ShmOk(s) && Allowed(s, op) && !MappingFailed(Step(s, op).1)
    ensures ShmOk(Step(s, op).0)
  {
    hide Inv, ShmOk, DoAddProcess, DoAddAgent, DoAgentShouldExit, DoCommitExit, AddExact, AddPrefix,
         DoJoinSubscriber, DoJoinPublisher, DoPublish, DoReceive, DoTake, DoRelease, DoExit, ReleaseWrapper, Sweep;
    match op {
      case AddProcess(pid, ns, role, domain, ok) => AddProcessShm(s, pid, ns, role, domain, ok);
      case BridgeShutdown(pid) => DemotedShm(s, pid);
      case CheckBridgeShutdown(pid, ns) => DemotedShm(s, pid); CheckIs(s, pid, ns);
      case AddAgent(pid, ns, domain, ok) => AgentsShm(s, op);
      case AgentShouldExit(pid, ns, domain, commit) => AgentsShm(s, op);
      case CommitExit(ns, g, caller) => CommitShm(s, ns, g, caller);
      case AddBridge(ns, nf, nt, f, t, ok) =>
        RulesFacts(s);
        AddExactSafe(s.rules, s.wrappers.Keys, s.nextRule, ns, nf, nt, f, t, ok);
        RegistrationShm(s, AddExact(s.rules, s.wrappers.Keys, s.nextRule, ns, nf, nt, f, t, ok).0);
      case AddBridgePrefix(ns, p, f, t, ok) =>
        RulesFacts(s);
        AddPrefixSafe(s.rules, s.wrappers.Keys, s.nextRule, ns, p, f, t, ok);
        RegistrationShm(s, AddPrefix(s.rules, s.wrappers.Keys, s.nextRule, ns, p, f, t, ok).0);
      case JoinSubscriber(ns, name, a, topicOk, fault) => JoinSubscriberShm(s, ns, name, a, topicOk, fault);
      case JoinPublisher(ns, name, a, topicOk, fault) => JoinPublisherShm(s, ns, name, a, topicOk, fault);
      case PublishMsg(pid, ns, name, id, addr, ok) => PublishShm(s, pid, ns, name, id, addr, ok);
      case ReceiveMsg(pid, ns, name, id, buffers, shm) => ReceiveShm(s, pid, ns, name, id, buffers, shm);
      case TakeMsg(pid, ns, name, id, same, buffers, shm) => TakeShm(s, pid, ns, name, id, same, buffers, shm);
      case ReleaseRef(pid, ns, name, id, entry) => ReleaseShm(s, pid, ns, name, id, entry);
      case LeaveSubscriber(pid, ns, name, id) =>
        if StoreAt(s, pid, ns, name).Some? {
          var T := StoreAt(s, pid, ns, name).value;
          LeaveShm(s, T, Cell(ns, name, DomainOf(s.procs, pid)), {id}, DeadPublishers(s.procs, s.topics[T]));
        }
      case LeavePublisher(pid, ns, name, id) =>
        if StoreAt(s, pid, ns, name).Some? {
          LeaveShm(s, StoreAt(s, pid, ns, name).value, Cell(ns, name, DomainOf(s.procs, pid)), {}, {id});
        }
      case ProcessExit(pid) => ExitShm(s, pid);
    }
  }

  lemma AgentsShm(s: State, op: Op)
    requires ShmOk(s) && (op.AddAgent? || op.AgentShouldExit?)
    ensures ShmOk(Step(s, op).0)
  {
    hide ShmStore, AliveIn, HasAgent;
  }

  /** A run in which no receive or take failed while mapping. */
  ghost predicate SmoothRun(states: seq<State>, ops: seq<Op>) {
    && Run(states, ops)
    && forall i :: 0 <= i < |ops| ==> !MappingFailed(Step(states[i], ops[i]).1)
  }

  lemma {:induction false} ShmRun(states: seq<State>, ops: seq<Op>, i: nat)
    requires SmoothRun(states, ops) && i < |states|
    ensures ShmOk(states[i]) && Inv(states[i])
  {
    hide Inv, Allowed, Step;
    RunKeeps(states, ops, i);
    if i == 0 {
      hide ShmStore;
    } else {
      ShmRun(states, ops, i - 1);
      hide ShmOk, Init;
      StepShm(states[i - 1], ops[i - 1]);
    }
  }

  /**
    Shared-memory safety. Whenever subscriber `q` holds message `e`, exactly one pool contains the
    message's address; the subscriber's live process is in its mapped list; while the publisher's
    process lives the pool is that process's own; and the pool cannot be assigned to anybody else.
   */
  lemma HeldMessageIsMapped(states: seq<State>, ops: seq<Op>, i: nat, T: int, e: Entry, q: int) returns (k: nat)
    requires SmoothRun(states, ops) && i < |states|
    requires T in states[i].topics && e in states[i].topics[T].entries && q in e.refs
    ensures var s, t := states[i], states[i].topics[T];
      && k < |s.pools| && InPool(s.pools[k], s.poolSize, e.addr)
      && (forall j :: 0 <= j < |s.pools| && InPool(s.pools[j], s.poolSize, e.addr) ==> j == k)
      && q in t.subs && Alive(s.procs, t.subs[q].pid) && t.subs[q].pid in s.pools[k].pids
      && e.publisher in t.pubs
      && (Alive(s.procs, t.pubs[e.publisher].pid) ==> s.procs[t.pubs[e.publisher].pid].pool == k)
      && FirstFree(s.pools) != k
  {
    hide Run, SmoothRun;
    ShmRun(states, ops, i);
    k := HeldInState(states[i], T, e, q);
  }

  lemma HeldInState(s: State, T: int, e: Entry, q: int) returns (k: nat)
    requires Inv(s) && ShmOk(s) && T in s.topics && e in s.topics[T].entries && q in e.refs
    ensures var t := s.topics[T];
      && k < |s.pools| && InPool(s.pools[k], s.poolSize, e.addr)
      && (forall j :: 0 <= j < |s.pools| && InPool(s.pools[j], s.poolSize, e.addr) ==> j == k)
      && q in t.subs && Alive(s.procs, t.subs[q].pid) && t.subs[q].pid in s.pools[k].pids
      && e.publisher in t.pubs
      && (Alive(s.procs, t.pubs[e.publisher].pid) ==> s.procs[t.pubs[e.publisher].pid].pool == k)
      && FirstFree(s.pools) != k
  {
    hide Inv, CountsOk, IdsOk, NoStaleDead, QuietIsMapped, FirstFree;
    var t := s.topics[T];
    StoreFacts(s, T);
    ShmAt(s, T);
    assert HoldersOk(t.subs, e);
    assert MapsAddr(s.pools, s.poolSize, t.subs[q].pid, e.addr);
    k :| 0 <= k < |s.pools| && InPool(s.pools[k], s.poolSize, e.addr) && t.subs[q].pid in s.pools[k].pids;
    LayoutFacts(s);
    forall j | 0 <= j < |s.pools| && InPool(s.pools[j], s.poolSize, e.addr) ensures j == k {
      RangesDisjoint(s.pools, s.poolStart, s.poolSize, j, k, e.addr);
    }
    assert PoolOk(s.pools[k]);
    if FirstFree(s.pools) < |s.pools| {
      AssignKeeps(s.pools, 0);
    }
  }

  lemma LayoutFacts(s: State)
    requires Inv(s)
    ensures PoolsOk(s.pools) && LaidOut(s.pools, s.poolStart, s.poolSize)
  {
  }

  // ---------- The pool stays with the subscriber until it exits ----------

  /** This step registers a new process and so gives it a pool. */
  predicate Registers(s: State, op: Op, u: State) {
    op.AddProcess? && op.pid !in s.procs && op.pid in u.procs
  }

  /** A mapping lives as long as the process is neither cleaned up nor deregistered. */
  lemma StepKeepsMapping(s: State, op: Op, pid: int, k: nat)
    requires Inv(s) && k < |s.pools| && pid in s.pools[k].pids
    requires op != ProcessExit(pid) && !(op.CommitExit? && op.caller == pid)
    ensures var u := Step(s, op).0; |u.pools| == |s.pools| && pid in u.pools[k].pids
    ensures Registers(s, op, Step(s, op).0) ==> Step(s, op).0.procs[op.pid].pool != k
  {
    hide StoresOk, LiveOk, GroupingOk, RulesOk, RegistryOk, LaidOut, OwnersOk, PoolOk, Exited, ExitTopics, InUse,
         Referred, Free, Assign, AddExact, AddPrefix, Sweep, Batch, TakeCandidate, HandedOut, ReleaseWrapper,
         MappedInto, Unmappable, PoolsToMap, FirstFree, HasDaemon, HasManager, HasAgent, Published, Inserted,
         WalkRunsOff, Reclaimable, Find, Partner, AliveIn, ProcessesOf, ProcessesIn, Window, Release, AddSubscriber,
         AddPublisher;
    match op {
      case AddProcess(p, _, _, _, _) =>
        AssignKeeps(s.pools, p);
        AssignLayout(s.pools, p);
      case ProcessExit(p) =>
        FreeKeeps(s.pools, p);
        FreeLength(s.pools, p);
      case CommitExit(_, _, c) =>
        FreeKeeps(s.pools, c);
        FreeLength(s.pools, c);
      case ReceiveMsg(p, ns, name, id, b, shm) => DeliveryKeepsMapping(s, op, pid, k);
      case TakeMsg(p, ns, name, id, same, b, shm) => DeliveryKeepsMapping(s, op, pid, k);
      case LeaveSubscriber(p, ns, name, id) => LeavingKeepsPools(s, op);
      case LeavePublisher(p, ns, name, id) => LeavingKeepsPools(s, op);
      case JoinSubscriber(_, _, _, _, _) => JoiningKeepsPools(s, op);
      case JoinPublisher(_, _, _, _, _) => JoiningKeepsPools(s, op);
      case PublishMsg(_, _, _, _, _, _) =>
      case ReleaseRef(_, _, _, _, _) =>
      case AddAgent(_, _, _, _) =>
      case AgentShouldExit(_, _, _, _) =>
      case BridgeShutdown(_) =>
      case CheckBridgeShutdown(_, _) =>
      case AddBridge(_, _, _, _, _, _) =>
      case AddBridgePrefix(_, _, _, _, _) =>
    }
  }

  lemma LeavingKeepsPools(s: State, op: Op)
    requires op.LeaveSubscriber? || op.LeavePublisher?
    ensures Step(s, op).0.pools == s.pools
  {
    hide Sweep, HasDomainEndpoint;
  }

  lemma JoiningKeepsPools(s: State, op: Op)
    requires op.JoinSubscriber? || op.JoinPublisher?
    ensures Step(s, op).0.pools == s.pools
  {
    hide Find, Partner, AddSubscriber, AddPublisher;
  }

  lemma DeliveryKeepsMapping(s: State, op: Op, pid: int, k: nat)
    requires op.ReceiveMsg? || op.TakeMsg?
    requires PoolsOk(s.pools) && k < |s.pools| && pid in s.pools[k].pids
    ensures var u := Step(s, op).0; |u.pools| == |s.pools| && pid in u.pools[k].pids
  {
    hide Batch, TakeCandidate, HandedOut, Unmappable, PoolsToMap, Window, PoolOk;
  }

  /** The pool a process maps is not given to any newcomer before the process exits, whoever owned it. */
  lemma {:induction false} PoolNotReassigned(states: seq<State>, ops: seq<Op>, i: nat, j: nat, pid: int, k: nat)
    requires Run(states, ops) && i <= j < |states|
    requires k < |states[i].pools| && pid in states[i].pools[k].pids
    requires forall m :: i <= m < j ==> ops[m] != ProcessExit(pid) && !(ops[m].CommitExit? && ops[m].caller == pid)
    ensures |states[j].pools| == |states[i].pools| && pid in states[j].pools[k].pids
    ensures forall m :: i <= m < j && Registers(states[m], ops[m], states[m + 1]) ==>
      states[m + 1].procs[ops[m].pid].pool != k
  {
    hide Inv, Init, Allowed, Step;
    if i < j {
      PoolNotReassigned(states, ops, i, j - 1, pid, k);
      RunKeeps(states, ops, j - 1);
      StepKeepsMapping(states[j - 1], ops[j - 1], pid, k);
    }
  }
}
