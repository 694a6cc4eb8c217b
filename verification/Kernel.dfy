// The module's tables as objects, and the ioctls that work on them in place.
//
// Every ioctl is proved equal to its step of the transition system, so what holds of all runs of
// that system holds of these methods.

module Kernels {
  import opened Base
  import opened Seqs
  import opened Sets
  import opened TopicModel
  import opened StoreInvariant
  import opened NotifyLists
  import opened TopicStructs
  import opened DomainRules
  import opened RuleTables
  import opened ProcessTables
  import opened ShmInfo
  import opened ExitSweep
  import opened Mempools
  import opened KernelModel
  import opened KernelInvariant
  import opened ProcessInvariant

  class Kernel {
    const table: RuleTable
    const processes: ProcessTable
    const mempool: MempoolAllocator
    const poolStart: int
    var wrappers: map<Cell, int>
    var stores: map<int, TopicStruct>
    var nextTopic: int

    ghost function Topics(): map<int, Topic>
      reads `stores, stores.Values
    {
      map T | T in stores :: stores[T].View()
    }

    ghost function View(): State
      reads this, stores.Values, table, processes, mempool, mempool.entries
    {
      State(processes.procs, processes.agents, table.rules, table.next, wrappers, Topics(), nextTopic,
            mempool.entries[..], poolStart, mempool.sizeBytes)
    }

    /** The cached notify lists of every store. */
    ghost function Lists(): map<int, map<int, NotifyList>>
      reads `stores, stores.Values
    {
      map T | T in stores :: stores[T].notify
    }

    /** Each address names an object of its own. */
    ghost predicate OwnObjects()
      reads `stores
    {
      forall T, U :: T in stores && U in stores && T != U ==> stores[T] != stores[U]
    }

    /** Every store is consistent and has its notify lists up to date. */
    ghost predicate StoresValid()
      reads `stores, stores.Values, table
    {
      forall T :: T in stores ==> stores[T].Valid(table.rules)
    }

    ghost predicate Shape()
      reads `stores, stores.Values, table
    {
      OwnObjects() && StoresValid()
    }

    ghost predicate Valid()
      reads this, stores.Values, table, processes, mempool, mempool.entries
    {
      Shape() && Inv(View())
    }

    /** The module as loaded, over the pools that init_memory_allocator laid out from `start`. */
    constructor (pools: MempoolAllocator, start: int)
      requires LaidOut(pools.entries[..], start, pools.sizeBytes)
      requires forall k :: 0 <= k < pools.entries.Length ==>
        pools.entries[k].mappedNum == 0 && pools.entries[k].pids == []
      ensures Init(View()) && Valid()
      ensures mempool == pools && fresh(table) && fresh(processes)
    {
      table := new RuleTable();
      processes := new ProcessTable();
      mempool, poolStart := pools, start;
      wrappers, stores, nextTopic := map[], map[], 0;
      new;
      assert Topics() == map[];
      InitHolds(View());
    }

    /** One store changed, the others did not. */
    twostate lemma StoreUpdated(T: int)
      requires unchanged(this) && unchanged(table) && T in stores && old(Shape())
      requires forall U :: U in stores && stores[U] != stores[T] ==> unchanged(stores[U])
      ensures Topics() == old(Topics())[T := stores[T].View()]
      ensures stores[T].Valid(table.rules) ==> Shape()
    {
      var before, after := old(Topics()), Topics();
      forall U | U in stores && U != T ensures after[U] == before[U] && stores[U].Valid(table.rules) {
        assert unchanged(stores[U]);
        assert old(stores[U].Valid(table.rules));
      }
      assert after == before[T := stores[T].View()];
    }

    twostate lemma ListsUpdated(T: int)
      requires unchanged(this) && T in stores && old(OwnObjects())
      requires forall U :: U in stores && stores[U] != stores[T] ==> unchanged(stores[U])
      ensures Lists() == old(Lists())[T := stores[T].notify]
      ensures stores[T].notify == old(stores[T].notify) ==> Lists() == old(Lists())
    {
      var before, after := old(Lists()), Lists();
      forall U | U in stores && U != T ensures after[U] == before[U] {
        assert unchanged(stores[U]);
      }
      assert after == before[T := stores[T].notify];
      assert before[T] == old(stores[T].notify);
    }

    /** One store more, the others as before. */
    twostate lemma StoreAdded(T: int)
      requires unchanged(table) && old(Shape()) && T !in old(stores) && T in stores && fresh(stores[T])
      requires stores == old(stores)[T := stores[T]] && forall U :: U in old(stores) ==> unchanged(old(stores[U]))
      requires stores[T].Valid(table.rules)
      ensures Topics() == old(Topics())[T := stores[T].View()] && Shape()
    {
      hide Consistent, NotifyOk;
      forall U | U in old(stores) ensures stores[U].Valid(table.rules) {
        assert old(stores[U].Valid(table.rules));
      }
      TopicsAdded(T);
    }

    twostate lemma TopicsAdded(T: int)
      requires T !in old(stores) && T in stores && fresh(stores[T])
      requires stores == old(stores)[T := stores[T]] && forall U :: U in old(stores) ==> unchanged(old(stores[U]))
      ensures Topics() == old(Topics())[T := stores[T].View()]
    {
      var before, after := old(Topics()), Topics();
      forall U | U in old(stores) ensures after[U] == before[U] {
        assert unchanged(old(stores[U]));
      }
      assert after == before[T := stores[T].View()];
    }

    twostate lemma ListsAdded(T: int)
      requires T !in old(stores) && T in stores && stores == old(stores)[T := stores[T]]
      requires forall U :: U in old(stores) ==> unchanged(old(stores[U]))
      ensures ListsStay(old(Lists()), Lists())
    {
      forall U | U in old(stores) ensures Lists()[U] == old(Lists())[U] {
        assert unchanged(old(stores[U]));
      }
    }

    twostate lemma ListsDropped(T: int)
      requires stores == old(stores) - {T} && forall U :: U in stores ==> unchanged(stores[U])
      ensures Lists() == old(Lists()) - {T}
    {
      forall U | U in stores ensures Lists()[U] == old(Lists())[U] {
        assert unchanged(stores[U]);
      }
      assert Lists() == old(Lists()) - {T};
    }

    /** One store fewer, the others as before. */
    twostate lemma StoreDropped(T: int)
      requires unchanged(table) && old(Shape()) && stores == old(stores) - {T}
      requires forall U :: U in stores ==> unchanged(stores[U])
      ensures Topics() == old(Topics()) - {T} && Shape()
    {
      hide Consistent, NotifyOk;
      var before, after := old(Topics()), Topics();
      forall U | U in stores ensures after[U] == before[U] && stores[U].Valid(table.rules) {
        assert old(stores[U].Valid(table.rules));
      }
      assert after == before - {T};
    }

    twostate lemma TopicsUnchanged()
      requires unchanged(this) && unchanged(table) && old(Shape()) && forall T :: T in stores ==> unchanged(stores[T])
      ensures Topics() == old(Topics()) && Shape()
    {
      var before, after := old(Topics()), Topics();
      forall T | T in stores ensures stores[T].Valid(table.rules) && after[T] == before[T] {
        assert old(stores[T].Valid(table.rules));
      }
      assert after == before;
    }

    /** find_topic_for_current: the store behind the caller's own domain's wrapper. */
    method FindStore(pid: int, ns: int, name: string) returns (found: Option<int>)
      ensures found == StoreAt(View(), pid, ns, name)
      ensures found.Some? ==> found.value in stores
    {
      var domain := if pid in processes.procs then processes.procs[pid].domain else 0;
      var c := Cell(ns, name, domain);
      if c !in wrappers || wrappers[c] !in stores { return None; }
      found := Some(wrappers[c]);
    }

    lemma StoreValid(T: int)
      requires Shape() && T in stores
      ensures stores[T].Valid(table.rules) && T in View().topics && View().topics[T] == stores[T].View()
      ensures Consistent(stores[T].View()) && NotifyOk(table.rules, stores[T].View(), stores[T].notify)
      ensures |stores[T].pubs| <= MAX_PUBLISHER_NUM
    {
      hide Inv, EntriesOk, CountsOk, RefsOk, NotifyOk;
    }

    lemma ListsAt(T: int)
      requires T in stores
      ensures T in Lists() && Lists()[T] == stores[T].notify
    {
    }

    lemma ViewFields()
      ensures View().procs == processes.procs && View().agents == processes.agents
      ensures View().rules == table.rules && View().nextRule == table.next
      ensures View().wrappers == wrappers && View().topics == Topics() && View().nextTopic == nextTopic
      ensures View().pools == mempool.entries[..] && View().topics.Keys == stores.Keys
    {
    }

    // ---------- Publishing and delivery ----------

    method Publish(pid: int, ns: int, name: string, id: int, addr: int, allocOk: bool)
      returns (r: Result<int>, released: seq<int>, ctxs: seq<int>)
      requires Valid() && OwnsPublisher(View(), pid, ns, name, id)
      modifies stores.Values
      ensures Valid() && View() == DoPublish(old(View()), pid, ns, name, id, addr, allocOk).0
      ensures var reply := DoPublish(old(View()), pid, ns, name, id, addr, allocOk).1;
        && reply.PublishReply? && r == reply.result && released == AddrsOf(reply.released)
        && Wakes(SubscribersAt(old(View()), pid, ns, name), reply.woken, ctxs)
      ensures Lists() == old(Lists())
    {
      hide Inv, Consistent, NotifyOk, Reclaimable, WalkRunsOff, Inserted, Without, Listeners, StoresValid,
           OwnsPublisher, Lists;
      released, ctxs := [], [];
      PublishKeeps(View(), pid, ns, name, id, addr, allocOk);
      assert AddrsOf([]) == [];
      var found := FindStore(pid, ns, name);
      if found.None? { return Err(EINVAL), released, ctxs; }
      var T := found.value;
      StoreValid(T);
      var topic := stores[T];
      if id !in topic.pubs { return Err(EINVAL), released, ctxs; }
      var p := topic.pubs[id];
      if p.pid !in processes.procs { return Err(EINVAL), released, ctxs; }
      var k := processes.procs[p.pid].pool;
      if k >= mempool.entries.Length || !InPool(mempool.entries[k], mempool.sizeBytes, addr) {
        return Err(EINVAL), released, ctxs;
      }
      WokenExactly(table.rules, topic.View(), id, topic.notify);
      r, released, ctxs := topic.PublishHere(table.rules, id, addr, allocOk);
      StoreUpdated(T);
      ListsUpdated(T);
    }

    method ReleaseMessageEntryReference(pid: int, ns: int, name: string, id: int, entry: int) returns (r: Result<int>)
      requires Valid()
      modifies stores.Values
      ensures Valid() && View() == DoRelease(old(View()), pid, ns, name, id, entry).0
      ensures DoRelease(old(View()), pid, ns, name, id, entry).1 == Plain(r)
      ensures Lists() == old(Lists())
    {
      hide Inv, Consistent, NotifyOk, StoresValid, Release, Lists;
      ReleaseStepKeeps(View(), pid, ns, name, id, entry);
      var found := FindStore(pid, ns, name);
      if found.None? { return Err(EINVAL); }
      var T := found.value;
      StoreValid(T);
      ghost var t := stores[T].View();
      assert EntriesOk(t) by { StoreEntriesOk(t); }
      var released := stores[T].ReleaseReference(id, entry);
      ReleaseKeeps(t, id, entry);
      ReleaseSilent(table.rules, t, id, entry, stores[T].notify);
      StoreUpdated(T);
      ListsUpdated(T);
      r := if released.Ok? then Ok(0) else Err(EINVAL);
    }

    /** The second half of a receive or take. */
    method MapNewPublishers(T: int, id: int, domain: nat, buffers: nat, budget: nat)
      returns (r: Result<int>, ghost shm: ShmFault)
      requires Shape() && T in stores && id in stores[T].subs
      requires forall p :: Alive(processes.procs, p) ==> processes.procs[p].pool < mempool.entries.Length
      modifies stores.Values, mempool.entries
      ensures Shape()
      ensures (View(), r) == MapPublishers(old(View()), T, old(View()).topics[T], id, domain, buffers, shm)
      ensures budget >= |old(stores[T].pubs)| ==> !shm.fails
      ensures Lists() == old(Lists())
    {
      hide Inv, Consistent, NotifyOk, MappedInto, Unmappable, PoolsToMap, StoresValid, Lists;
      var topic := stores[T];
      ghost var s, t := View(), topic.View();
      PutSame(s, T);
      StoreValid(T);
      if !topic.subs[id].needMmap { return Ok(0), ShmFault(false, {}); }
      r, shm := SetPublisherShmInfo(mempool, World(processes.procs, table.rules), topic, topic.subs[id], domain,
                                    buffers, budget, s);
      TopicsUnchanged();
      if r.Err? { return; }
      MmapFlagCleared(table.rules, t, id, topic.notify);
      topic.subs := topic.subs[id := topic.subs[id].(needMmap := false)];
      StoreUpdated(T);
      ListsUpdated(T);
    }

    method ReceiveMsg(pid: int, ns: int, name: string, id: int, buffers: nat, budget: nat)
      returns (r: Result<int>, got: Received, ghost shm: ShmFault)
      requires Valid() && OwnsSubscriber(View(), pid, ns, name, id)
      modifies stores.Values, mempool.entries
      ensures Valid() && View() == DoReceive(old(View()), pid, ns, name, id, buffers, shm).0
      ensures var reply := DoReceive(old(View()), pid, ns, name, id, buffers, shm).1;
        && reply.DeliveryReply? && r == reply.result
        && got == Received(IdsOf(reply.handed), AddrsOf(reply.handed), reply.callAgain)
      ensures budget >= MAX_PUBLISHER_NUM ==> !shm.fails
      ensures Lists() == old(Lists())
    {
      hide Inv, Consistent, NotifyOk, StoresValid, Batch, Window, HandedOut, MapPublishers, OwnsSubscriber,
           Lists;
      forall fault { ReceiveStepKeeps(View(), pid, ns, name, id, buffers, fault); }
      got, shm := Received([], [], false), ShmFault(false, {});
      assert IdsOf([]) == [] && AddrsOf([]) == [];
      var found := FindStore(pid, ns, name);
      if found.None? || id !in stores[found.value].subs { return Err(EINVAL), got, shm; }
      var T := found.value;
      StoreValid(T);
      PoolsReachable(View());
      ghost var s, t := View(), stores[T].View();
      ghost var batch := Batch(WorldOf(s), t, t.subs[id]);
      var core := stores[T].ReceiveMsgCore(World(processes.procs, table.rules), id);
      got := core.value;
      assert stores[T].View() == HandedOut(t, id, batch) by { ReceiveIs(WorldOf(s), t, id); }
      ReceiveKeeps(WorldOf(s), t, id);
      HandedOutStays(table.rules, t, id, batch, stores[T].notify);
      StoreUpdated(T);
      ListsUpdated(T);
      MapAfterPut(s, T, stores[T].View());
      r, shm := MapNewPublishers(T, id, DomainOf(processes.procs, pid), buffers, budget);
    }

    method TakeMsg(pid: int, ns: int, name: string, id: int, allowSame: bool, buffers: nat, budget: nat)
      returns (r: Result<int>, got: Option<Entry>, ghost shm: ShmFault)
      requires Valid() && OwnsSubscriber(View(), pid, ns, name, id)
      modifies stores.Values, mempool.entries
      ensures Valid() && View() == DoTake(old(View()), pid, ns, name, id, allowSame, buffers, shm).0
      ensures var reply := DoTake(old(View()), pid, ns, name, id, allowSame, buffers, shm).1;
        && reply.DeliveryReply? && r == reply.result
        && got == if reply.handed == [] then None else Some(reply.handed[0])
      ensures budget >= MAX_PUBLISHER_NUM ==> !shm.fails
      ensures Lists() == old(Lists())
    {
      hide Inv, Consistent, NotifyOk, StoresValid, TakeCandidate, HandedOut, MapPublishers, OwnsSubscriber,
           Lists;
      forall fault { TakeStepKeeps(View(), pid, ns, name, id, allowSame, buffers, fault); }
      got, shm := None, ShmFault(false, {});
      var found := FindStore(pid, ns, name);
      if found.None? || id !in stores[found.value].subs { return Err(EINVAL), got, shm; }
      var T := found.value;
      StoreValid(T);
      PoolsReachable(View());
      ghost var s, t := View(), stores[T].View();
      ghost var batch := TakeCandidate(WorldOf(s), t, t.subs[id], allowSame);
      var core := stores[T].TakeMsgCore(World(processes.procs, table.rules), id, allowSame);
      got := core.value;
      assert stores[T].View() == HandedOut(t, id, batch) by { TakeIs(WorldOf(s), t, id, allowSame); }
      TakeKeeps(WorldOf(s), t, id, allowSame);
      HandedOutStays(table.rules, t, id, batch, stores[T].notify);
      StoreUpdated(T);
      ListsUpdated(T);
      MapAfterPut(s, T, stores[T].View());
      r, shm := MapNewPublishers(T, id, DomainOf(processes.procs, pid), buffers, budget);
    }

    // ---------- Joining ----------

    /** find_grouped_topic_struct: the store of the partner cell's wrapper, if that exists. */
    method FindGroupedTopic(c: Cell) returns (T: Option<int>)
      requires Disjoint(table.rules)
      ensures var d := Partner(table.rules, c);
        T == if d.Some? && d.value in wrappers then Some(wrappers[d.value]) else None
    {
      var rule := table.FindDomainRule(c);
      if rule.None? { return None; }
      var r := table.rules[rule.value];
      FindIs(table.rules, c, rule.value);
      var partnerDomain, partnerName;
      if c.domain == r.domainA {
        partnerDomain, partnerName := r.domainB, r.nameB;
      } else {
        partnerDomain, partnerName := r.domainA, r.nameA;
      }
      if r.isPrefix { partnerName := c.name; }
      var partner := Cell(c.ns, partnerName, partnerDomain);
      T := if partner in wrappers then Some(wrappers[partner]) else None;
    }

    method ShareStore(c: Cell, T: int)
      requires Shape() && T in stores
      modifies this`wrappers, stores.Values
      ensures Shape() && stores == old(stores) && wrappers == old(wrappers)[c := T]
      ensures View() == Put(old(View()), T, old(View()).topics[T].(refcnt := old(View()).topics[T].refcnt + 1))
                          .(wrappers := old(wrappers)[c := T])
      ensures ListsStay(old(Lists()), Lists())
    {
      hide Consistent, NotifyOk, StoresValid, Lists, ListsStay;
      StoreValid(T);
      RefcntSilent(table.rules, stores[T].View(), stores[T].wrapperRefcnt + 1, stores[T].notify);
      stores[T].wrapperRefcnt := stores[T].wrapperRefcnt + 1;
      StoreUpdated(T);
      ListsUpdated(T);
      ListsStayAlone(Lists());
      wrappers := wrappers[c := T];
    }

    method NewStore(c: Cell)
      requires Shape() && Disjoint(table.rules) && nextTopic !in stores
      modifies this
      ensures Shape() && stores.Keys == old(stores).Keys + {old(nextTopic)}
      ensures wrappers == old(wrappers)[c := old(nextTopic)]
      ensures View() == Put(old(View()), old(nextTopic), EmptyTopic(Find(table.rules, c)))
                          .(wrappers := old(wrappers)[c := old(nextTopic)], nextTopic := old(nextTopic) + 1)
      ensures fresh(stores.Values - old(stores.Values))
      ensures ListsStay(old(Lists()), Lists())
    {
      hide Consistent, NotifyOk, StoresValid, Find, Disjoint, Lists, ListsStay;
      var rule := table.FindDomainRule(c);
      var topic := new TopicStruct(rule, table.rules);
      wrappers := wrappers[c := nextTopic];
      stores := stores[nextTopic := topic];
      StoreAdded(nextTopic);
      ListsAdded(nextTopic);
      nextTopic := nextTopic + 1;
    }

    method FindOrAddTopic(c: Cell, topicOk: bool) returns (T: Option<int>)
      requires Valid()
      modifies this, stores.Values
      ensures Valid() && (View(), T) == AddTopic(old(View()), c, topicOk)
      ensures T.Some? ==> T.value in stores && c in wrappers && wrappers[c] == T.value
      ensures fresh(stores.Values - old(stores.Values))
      ensures ListsStay(old(Lists()), Lists())
    {
      hide Inv, Shape, Find, Partner, Put, AddTopic, View, Disjoint, Lists, ListsStay;
      ViewFields();
      ListsStayAlone(Lists());
      AddTopicKeeps(View(), c, topicOk);
      TableFacts(View());
      AddTopicCases(View(), c, topicOk);
      if c in wrappers { return Some(wrappers[c]); }
      if !topicOk { return None; }
      var grouped := FindGroupedTopic(c);
      if grouped.Some? {
        ShareStore(c, grouped.value);
        return grouped;
      }
      T := Some(nextTopic);
      NewStore(c);
    }

    method AddSubscriberTo(ns: int, name: string, a: SubArgs, topicOk: bool, allocOk: bool, budget: nat)
      returns (r: Result<int>, ghost fault: Fault)
      requires Valid() && Participant(View().procs, a.pid)
      modifies this, stores.Values
      ensures Valid() && View() == DoJoinSubscriber(old(View()), ns, name, a, topicOk, fault).0
      ensures DoJoinSubscriber(old(View()), ns, name, a, topicOk, fault).1 == Plain(r)
      ensures fault.AllocFault? <==> !allocOk
      ensures allocOk && budget >= MAX_PUBLISHER_NUM ==> fault.NoFault?
      ensures ArraysKept(old(Lists()), Lists())
    {
      hide Inv, Consistent, NotifyOk, StoresValid, AddTopic, AddSubscriber, Participant, Lists, ArraysKept,
           ListsStay, CapacitiesKept;
      ghost var s := View();
      fault := if allocOk then NoFault else AllocFault;
      JoinSubscriberKeeps(s, ns, name, a, topicOk, fault);
      var domain := DomainOf(processes.procs, a.pid);
      var found := FindOrAddTopic(Cell(ns, name, domain), topicOk);
      ghost var lists := Lists();
      StayingKeeps(old(Lists()), lists);
      if found.None? { return Err(ENOMEM), fault; }
      label Found:
      StoreValid(found.value);
      ListsAt(found.value);
      r, fault := stores[found.value].InsertSubscriberInfo(table.rules, domain, a, allocOk, budget);
      JoinSubscriberKeeps(s, ns, name, a, topicOk, fault);
      StoreUpdated@Found(found.value);
      ListsUpdated@Found(found.value);
      OneStoreGrows(old(Lists()), lists, found.value, stores[found.value].notify);
    }

    method AddPublisherTo(ns: int, name: string, a: PubArgs, topicOk: bool, allocOk: bool, arrayOk: bool)
      returns (r: Result<int>, ghost fault: Fault)
      requires Valid() && Participant(View().procs, a.pid)
      modifies this, stores.Values
      ensures Valid() && View() == DoJoinPublisher(old(View()), ns, name, a, topicOk, fault).0
      ensures DoJoinPublisher(old(View()), ns, name, a, topicOk, fault).1 == Plain(r)
      ensures fault.AllocFault? <==> !allocOk
      ensures allocOk && arrayOk ==> fault.NoFault?
      ensures ArraysKept(old(Lists()), Lists())
    {
      hide Inv, Consistent, NotifyOk, StoresValid, AddTopic, AddPublisher, Participant, Lists, ArraysKept,
           ListsStay, CapacitiesKept;
      ghost var s := View();
      fault := if allocOk then NoFault else AllocFault;
      JoinPublisherKeeps(s, ns, name, a, topicOk, fault);
      var domain := DomainOf(processes.procs, a.pid);
      var found := FindOrAddTopic(Cell(ns, name, domain), topicOk);
      ghost var lists := Lists();
      StayingKeeps(old(Lists()), lists);
      if found.None? { return Err(ENOMEM), fault; }
      label Found:
      StoreValid(found.value);
      ListsAt(found.value);
      r, fault := stores[found.value].InsertPublisherInfo(table.rules, domain, a, allocOk, arrayOk);
      JoinPublisherKeeps(s, ns, name, a, topicOk, fault);
      StoreUpdated@Found(found.value);
      ListsUpdated@Found(found.value);
      OneStoreGrows(old(Lists()), lists, found.value, stores[found.value].notify);
    }

    // ---------- Leaving ----------

    /** What the tables say of the store behind a wrapper: its references are counted, its endpoints homed. */
    ghost predicate Settled(c: Cell)
      reads this, stores.Values
    {
      && c in wrappers && wrappers[c] in stores
      && var t := stores[wrappers[c]].View();
         t.refcnt == |CellsOf(wrappers, wrappers[c])| && Homed(wrappers, wrappers[c], t)
    }

    /** agnocast_release_topic_wrapper, called once the wrapper's own domain has no endpoint left. */
    method ReleaseTopicWrapper(c: Cell)
      requires Shape() && Settled(c)
      requires !HasDomainEndpoint(stores[wrappers[c]].View(), c.domain)
      modifies this`wrappers, this`stores, stores.Values
      ensures Shape() && stores.Values <= old(stores).Values
      ensures View() == ReleaseWrapper(old(View()), c) && wrappers == old(wrappers) - {c}
      ensures old(wrappers[c]) !in stores ==> Vacant(old(stores[wrappers[c]].View()))
      ensures ArraysKeptOnLeave(old(Lists()), Lists())
    {
      hide Consistent, NotifyOk, StoresValid, HasDomainEndpoint, Homed, CellsOf, Vacant, Lists,
           ArraysKeptOnLeave;
      var T := wrappers[c];
      StoreValid(T);
      if stores[T].wrapperRefcnt <= 1 {
        StoreEntriesOk(stores[T].View());
        LastReleaseFindsNothing(wrappers, c, stores[T].View());
        ValuesWithout(stores, T);
        stores := stores - {T};
        StoreDropped(T);
        ListsDropped(T);
      } else {
        RefcntSilent(table.rules, stores[T].View(), stores[T].wrapperRefcnt - 1, stores[T].notify);
        stores[T].wrapperRefcnt := stores[T].wrapperRefcnt - 1;
        StoreUpdated(T);
        ListsUpdated(T);
      }
      NobodyCame(old(Lists()), T);
      wrappers := wrappers - {c};
    }

    method ReleaseIfUnused(c: Cell)
      requires Shape() && Settled(c)
      modifies this`wrappers, this`stores, stores.Values
      ensures Shape() && stores.Values <= old(stores).Values
      ensures View() == ReleaseWrapper(old(View()), c)
      ensures old(wrappers[c]) !in stores ==> Vacant(old(stores[wrappers[c]].View()))
      ensures ArraysKeptOnLeave(old(Lists()), Lists())
    {
      hide Consistent, NotifyOk, StoresValid, HasDomainEndpoint, Homed, CellsOf, Vacant, Lists,
           ArraysKeptOnLeave;
      NobodyCame(Lists(), wrappers[c]);
      var used := stores[wrappers[c]].HasDomainEndpoints(c.domain);
      if !used { ReleaseTopicWrapper(c); }
    }

    method RemoveSubscriberFrom(pid: int, ns: int, name: string, id: int) returns (r: Result<int>)
      requires Valid()
      modifies this`wrappers, this`stores, stores.Values
      ensures Valid() && View() == DoLeaveSubscriber(old(View()), pid, ns, name, id).0
      ensures DoLeaveSubscriber(old(View()), pid, ns, name, id).1 == Plain(r)
      ensures ArraysKeptOnLeave(old(Lists()), Lists())
    {
      hide Inv, Consistent, NotifyOk, StoresValid, RemoveSubscriber, ReleaseWrapper, NoStaleDead, Homed, CellsOf, Lists,
           ArraysKeptOnLeave, CapacitiesKept;
      NobodyCame(Lists(), 0);
      LeaveSubscriberKeeps(View(), pid, ns, name, id);
      var found := FindStore(pid, ns, name);
      if found.None? { return Err(EINVAL); }
      var T := found.value;
      StoreValid(T);
      if id !in stores[T].subs { return Err(ENODATA); }
      StoreFacts(View(), T);
      SubscriberRemoved(View(), T, id);
      ghost var t := stores[T].View();
      ListsAt(T);
      FewerAfterSweep(t, {id}, DeadPublishers(processes.procs, t));
      RemoveSubscriberIs(processes.procs, t, id);
      stores[T].RemoveSubscriberInfo(World(processes.procs, table.rules), id);
      StoreUpdated(T);
      ListsUpdated(T);
      AfterDeparture(table.rules, t, stores[T].View(), old(Lists()), T, stores[T].notify);
      ReferencesCounted(View(), T);
      ghost var lists := Lists();
      ReleaseIfUnused(Cell(ns, name, DomainOf(processes.procs, pid)));
      LeavesCompose(old(Lists()), lists, Lists());
      r := Ok(0);
    }

    method RemovePublisherFrom(pid: int, ns: int, name: string, id: int) returns (r: Result<int>)
      requires Valid()
      modifies this`wrappers, this`stores, stores.Values
      ensures Valid() && View() == DoLeavePublisher(old(View()), pid, ns, name, id).0
      ensures DoLeavePublisher(old(View()), pid, ns, name, id).1 == Plain(r)
      ensures ArraysKeptOnLeave(old(Lists()), Lists())
    {
      hide Inv, Consistent, NotifyOk, StoresValid, RemovePublisher, ReleaseWrapper, Homed, CellsOf, Lists,
           ArraysKeptOnLeave, CapacitiesKept;
      NobodyCame(Lists(), 0);
      LeavePublisherKeeps(View(), pid, ns, name, id);
      var found := FindStore(pid, ns, name);
      if found.None? { return Err(EINVAL); }
      var T := found.value;
      StoreValid(T);
      if id !in stores[T].pubs { return Err(ENODATA); }
      PublisherRemoved(View(), T, id);
      ghost var t := stores[T].View();
      ListsAt(T);
      FewerAfterRemoval(t, id);
      stores[T].RemovePublisherInfo(table.rules, id);
      StoreUpdated(T);
      ListsUpdated(T);
      AfterDeparture(table.rules, t, stores[T].View(), old(Lists()), T, stores[T].notify);
      ReferencesCounted(View(), T);
      ghost var lists := Lists();
      ReleaseIfUnused(Cell(ns, name, DomainOf(processes.procs, pid)));
      LeavesCompose(old(Lists()), lists, Lists());
      r := Ok(0);
    }

    // ---------- Process exit ----------

    /** The wrapper loop has visited the cells `done` of the state `s` before the exit of `pid`. */
    ghost predicate SweptSoFar(s: State, pid: int, done: set<Cell>)
      requires pid in s.procs
      reads this, stores.Values, table, processes, mempool, mempool.entries
    {
      var procs := Exited(s.procs, pid);
      var exited := ExitTopics(procs, s.topics, pid);
      View() == s.(procs := procs, agents := WithoutAgent(s.agents, pid), pools := Free(s.pools, pid),
                   wrappers := Remaining(s.wrappers, exited, done),
                   topics := Midway(s.wrappers, s.topics, exited, done))
    }

    /** One iteration of that loop. */
    method VisitWrapper(c: Cell, pid: int, ghost s: State, ghost done: set<Cell>)
      requires Inv(s) && pid in s.procs && Shape() && SweptSoFar(s, pid, done) && c in s.wrappers && c !in done
      modifies this`wrappers, this`stores, stores.Values
      ensures Shape() && SweptSoFar(s, pid, done + {c})
      ensures stores.Values <= old(stores).Values
      ensures ArraysKeptOnLeave(old(Lists()), Lists())
    {
      hide Inv, Consistent, NotifyOk, StoresValid, NoStaleDead, OnlyDied, Remaining, Midway, Exit, Exited, Reached,
           CellsOf, HasDomainEndpoint, WithoutAgent, Free, ReleaseWrapper, Visited, Homed, Lists,
           ArraysKeptOnLeave, CapacitiesKept;
      ghost var procs := Exited(s.procs, pid);
      ghost var exited := ExitTopics(procs, s.topics, pid);
      ghost var kept, mid, T := Remaining(s.wrappers, exited, done), Midway(s.wrappers, s.topics, exited, done),
        s.wrappers[c];
      TableFacts(s);
      ExitTopicKeys(procs, s.topics, pid);
      VisitStep(s.wrappers, s.topics, exited, done, c);
      VisitExits(s, pid, done, T);
      StoreValid(wrappers[c]);
      ghost var before := if Reached(s.wrappers, done, T) then procs else s.procs;
      ghost var u := exited[T].(refcnt := mid[T].refcnt);
      ghost var t := stores[T].View();
      ListsAt(T);
      FewerAfterExit(processes.procs, t, pid);
      stores[wrappers[c]].ProcessExit(before, World(processes.procs, table.rules), pid);
      AfterDeparture(table.rules, t, stores[T].View(), old(Lists()), T, stores[T].notify);
      assert stores[T].View() == u;
      StoreUpdated(T);
      ListsUpdated(T);
      ghost var lists := Lists();
      MidwayHomed(s, pid, done, T);
      MidwayCounted(s.wrappers, s.topics, exited, done, T);
      SameHome(kept, T, exited[T], u);
      ReleaseIsVisited(View(), kept, mid, c, u);
      ReleaseIfUnused(c);
      LeavesCompose(old(Lists()), lists, Lists());
    }

    method VisitAllWrappers(pid: int, ghost s: State)
      requires Inv(s) && pid in s.procs && Shape() && SweptSoFar(s, pid, {}) && wrappers == s.wrappers
      modifies this`wrappers, this`stores, stores.Values
      ensures Shape() && SweptSoFar(s, pid, s.wrappers.Keys)
      ensures ArraysKeptOnLeave(old(Lists()), Lists())
    {
      hide Inv, Shape, SweptSoFar, ArraysKeptOnLeave;
      NobodyCame(Lists(), 0);
      var remaining := wrappers.Keys;
      ghost var done: set<Cell> := {};
      while remaining != {}
        invariant remaining !! done && remaining + done == s.wrappers.Keys
        invariant Shape() && SweptSoFar(s, pid, done)
        invariant stores.Values <= old(stores).Values
        invariant ArraysKeptOnLeave(old(Lists()), Lists())
        decreases remaining
      {
        var c := Pick(remaining);
        remaining := remaining - {c};
        ghost var lists := Lists();
        VisitWrapper(c, pid, s, done);
        LeavesCompose(old(Lists()), lists, Lists());
        done := done + {c};
      }
      assert done == s.wrappers.Keys;
    }

    method ProcessExitCleanup(pid: int)
      requires Valid()
      modifies this`wrappers, this`stores, stores.Values, processes, mempool.entries
      ensures Valid() && View() == DoExit(old(View()), pid)
      ensures ArraysKeptOnLeave(old(Lists()), Lists())
    {
      hide Inv, Consistent, NotifyOk, StoresValid, Exited, Remaining, Midway, ExitTopics, InUse, Referred, WithoutAgent,
           Free, Lists, ArraysKeptOnLeave;
      NobodyCame(Lists(), 0);
      ghost var s := View();
      ExitKeeps(s, pid);
      AgentFacts(s);
      processes.RemoveDiscoveryAgentByPid(pid);
      if pid !in processes.procs { return; }
      processes.MarkExited(pid);
      mempool.FreeMemory(pid);
      ExitTopicKeys(Exited(s.procs, pid), s.topics, pid);
      WrappersCounted(s);
      NothingVisited(s.wrappers, s.topics, ExitTopics(Exited(s.procs, pid), s.topics, pid));
      EverythingVisited(s.wrappers, s.topics, ExitTopics(Exited(s.procs, pid), s.topics, pid));
      VisitAllWrappers(pid, s);
    }

    // ---------- Processes ----------

    method AddProcess(pid: int, ns: int, role: Role, domain: nat, allocOk: bool)
      returns (r: Result<int>, daemonExists: bool, bridgeExists: bool, agentExists: bool)
      requires Valid() && Allowed(View(), KernelModel.AddProcess(pid, ns, role, domain, allocOk))
      modifies processes, mempool.entries
      ensures Valid() && View() == DoAddProcess(old(View()), pid, ns, role, domain, allocOk).0
      ensures DoAddProcess(old(View()), pid, ns, role, domain, allocOk).1
           == Registered(r, daemonExists, bridgeExists, agentExists)
    {
      hide Inv, Shape, HasDaemon, HasManager, HasAgent, FirstFree, Assign, Allowed, View;
      ViewFields();
      AddProcessKeeps(View(), pid, ns, role, domain, allocOk);
      daemonExists, bridgeExists, agentExists := false, false, false;
      if role != UnlinkDaemon && domain == DOMAIN_ID_NONE { return Err(EINVAL), false, false, false; }
      if pid in processes.procs { return Err(EINVAL), false, false, false; }
      daemonExists := processes.HasAliveUnlinkDaemon(ns);
      bridgeExists := processes.HasAliveBridgeManager(ns, domain);
      var agent := processes.FindDiscoveryAgent(ns, domain);
      agentExists := agent.Some?;
      if role == BridgeManager && bridgeExists { r := Ok(-1); return; }
      if role == UnlinkDaemon && daemonExists { r := Ok(-1); return; }
      var k := EnterProcess(pid, ns, role, domain, allocOk);
      r := if k.Some? then Ok(k.value) else Err(ENOMEM);
    }

    /** Claims a free pool and enters the process under it. */
    method EnterProcess(pid: int, ns: int, role: Role, domain: nat, allocOk: bool) returns (k: Option<nat>)
      modifies processes`procs, mempool.entries
      ensures var free := FirstFree(old(mempool.entries[..]));
        if allocOk && free != mempool.entries.Length then
          && k == Some(free)
          && View() == old(View()).(
               procs := old(processes.procs)[pid :=
                   Process(false, role, ns, if role.UnlinkDaemon? then DOMAIN_ID_NONE else domain, free)],
               pools := Assign(old(mempool.entries[..]), pid))
        else k == None && View() == old(View())
    {
      hide FirstFree, Assign;
      FirstFreeBound(mempool.entries[..]);
      k := mempool.AssignMemory(pid, allocOk);
      if k.Some? {
        processes.procs := processes.procs[pid :=
            Process(false, role, ns, if role == UnlinkDaemon then DOMAIN_ID_NONE else domain, k.value)];
      }
    }

    method NotifyBridgeShutdown(pid: int)
      requires Valid() && (pid in processes.procs ==> !processes.procs[pid].role.UnlinkDaemon?)
      modifies processes
      ensures Valid() && View() == old(View()).(procs := Demoted(old(View()).procs, pid))
    {
      hide Inv, StoresValid;
      DemotedKeeps(View(), pid);
      if pid in processes.procs {
        processes.procs := processes.procs[pid := processes.procs[pid].(role := Application)];
      }
    }

    method CheckAndRequestBridgeShutdown(pid: int, ns: int) returns (shutdown: bool)
      requires Valid() && (pid in processes.procs ==> !processes.procs[pid].role.UnlinkDaemon?)
      modifies processes
      ensures Valid() && View() == DoCheckBridgeShutdown(old(View()), pid, ns).0
      ensures DoCheckBridgeShutdown(old(View()), pid, ns).1 == Verdict(shutdown)
    {
      hide Inv, StoresValid, ProcessesIn;
      DemotedKeeps(View(), pid);
      var n := processes.CountProcesses(ns, Some(DomainOf(processes.procs, pid)), false);
      shutdown := n <= 1;
      if shutdown && pid in processes.procs {
        processes.procs := processes.procs[pid := processes.procs[pid].(role := Application)];
      }
    }

    method AddDiscoveryAgent(pid: int, ns: int, domain: nat, allocOk: bool) returns (r: Result<()>, owned: bool)
      requires Valid() && Allowed(View(), AddAgent(pid, ns, domain, allocOk))
      modifies processes
      ensures Valid() && View() == DoAddAgent(old(View()), pid, ns, domain, allocOk).0
      ensures DoAddAgent(old(View()), pid, ns, domain, allocOk).1 ==
        if r.Ok? then Verdict(owned) else Plain(Err(r.error))
      ensures r.Err? ==> !owned
    {
      hide Inv, StoresValid, HasAgent, Allowed;
      AddAgentKeeps(View(), pid, ns, domain, allocOk);
      AgentFacts(View());
      NoSuchAgent(processes.agents, pid, ns, domain);
      r, owned := processes.AddDiscoveryAgent(pid, ns, domain, allocOk);
    }

    method DiscoveryAgentShouldExit(pid: int, ns: int, domain: nat, commit: bool) returns (exit: bool)
      requires Valid()
      modifies processes
      ensures Valid() && View() == DoAgentShouldExit(old(View()), pid, ns, domain, commit).0
      ensures DoAgentShouldExit(old(View()), pid, ns, domain, commit).1 == Verdict(exit)
    {
      hide Inv, StoresValid, AliveIn;
      AgentShouldExitKeeps(View(), pid, ns, domain, commit);
      AgentFacts(View());
      var alive := processes.CountProcesses(ns, Some(domain), true);
      exit := alive == 0;
      if commit && exit { processes.RemoveDiscoveryAgentByPid(pid); }
    }

    /** Phase two of draining; a negative `globalPid` is an idle poll, a negative `caller` no pid. */
    method CommitExitProcess(ns: int, globalPid: int, caller: int) returns (daemonShouldExit: bool)
      requires Valid() && Allowed(View(), CommitExit(ns, globalPid, caller))
      modifies processes, mempool.entries
      ensures Valid() && View() == DoCommitExit(old(View()), ns, globalPid, caller).0
      ensures DoCommitExit(old(View()), ns, globalPid, caller).1 == Verdict(daemonShouldExit)
    {
      hide Inv, StoresValid, ProcessesOf, Free, Allowed;
      CommitKeeps(View(), ns, globalPid, caller);
      if globalPid >= 0 {
        processes.procs := processes.procs - {globalPid};
      }
      var left := processes.CountProcesses(ns, None, false);
      daemonShouldExit := left == 0;
      if daemonShouldExit && globalPid < 0 && caller >= 0 {
        if caller in processes.procs && processes.procs[caller].role == UnlinkDaemon {
          processes.procs := processes.procs - {caller};
          mempool.FreeMemory(caller);
        }
      }
    }

    // ---------- Rules ----------

    method AddDomainBridge(ns: int, nameFrom: string, nameTo: string, from: nat, to: nat, allocOk: bool)
      returns (r: Result<int>)
      requires Valid()
      modifies table
      ensures Valid()
      ensures (View(), Plain(r)) == Step(old(View()), AddBridge(ns, nameFrom, nameTo, from, to, allocOk))
    {
      hide Inv, AddExact, RegistrationSafe;
      ghost var s := View();
      AddBridgeKeeps(s, AddBridge(ns, nameFrom, nameTo, from, to, allocOk));
      RulesFacts(s);
      AddExactSafe(s.rules, s.wrappers.Keys, s.nextRule, ns, nameFrom, nameTo, from, to, allocOk);
      var added := table.AddDomainRule(wrappers.Keys, ns, nameFrom, nameTo, from, to, allocOk);
      ListsSurviveRules(s);
      r := if added.Ok? then Ok(0) else Err(added.error);
    }

    method AddDomainBridgePrefix(ns: int, prefix: string, from: nat, to: nat, allocOk: bool) returns (r: Result<int>)
      requires Valid()
      modifies table
      ensures Valid()
      ensures (View(), Plain(r)) == Step(old(View()), AddBridgePrefix(ns, prefix, from, to, allocOk))
    {
      hide Inv, AddPrefix, RegistrationSafe;
      ghost var s := View();
      AddBridgeKeeps(s, AddBridgePrefix(ns, prefix, from, to, allocOk));
      RulesFacts(s);
      AddPrefixSafe(s.rules, s.wrappers.Keys, s.nextRule, ns, prefix, from, to, allocOk);
      var added := table.AddPrefixDomainRule(wrappers.Keys, ns, prefix, from, to, allocOk);
      ListsSurviveRules(s);
      r := if added.Ok? then Ok(0) else Err(added.error);
    }

    /** A registration leaves every cached notify list right, since no store's own rule changes. */
    twostate lemma ListsSurviveRules(s: State)
      requires unchanged(this) && forall T :: T in stores ==> unchanged(stores[T])
      requires Inv(s) && s == old(View()) && old(Shape())
      requires RegistrationSafe(s.rules, table.rules, s.wrappers.Keys)
      ensures Shape()
    {
      hide Inv, Consistent, NotifyOk, RegistrationSafe;
      forall T | T in stores ensures stores[T].Valid(table.rules) {
        assert old(stores[T].Valid(table.rules));
        assert s.topics[T] == stores[T].View();
        RuleOfStore(s, table.rules, T);
        RulesSilent(s.rules, table.rules, stores[T].View(), stores[T].notify);
      }
    }
  }

  lemma AgentFacts(s: State)
    requires Inv(s)
    ensures forall a, b :: a in s.agents && b in s.agents && a.pid == b.pid ==> a == b
    ensures forall a, b :: a in s.agents && b in s.agents && a.ns == b.ns && a.domain == b.domain ==> a == b
  {
    hide StoresOk, LiveOk, MemoryOk, GroupingOk, RulesOk;
  }

  lemma NoSuchAgent(agents: set<Agent>, pid: int, ns: int, domain: nat)
    ensures !HasAgent(agents, ns, domain) ==> Agent(pid, ns, domain) !in agents
  {
  }

  lemma FirstFreeBound(pools: seq<Pool>)
    ensures FirstFree(pools) <= |pools|
  {
  }

  /** Releasing a wrapper, on the two tables it touches. */
  lemma ReleaseIsVisited(s: State, wrappers: map<Cell, int>, topics: map<int, Topic>, c: Cell, u: Topic)
    requires c in wrappers && wrappers[c] in topics && s.wrappers == wrappers && s.topics == topics[wrappers[c] := u]
    ensures var (w, t) := Visited(wrappers, topics, c, u);
      ReleaseWrapper(s, c) == s.(wrappers := w, topics := t)
  {
    hide HasDomainEndpoint;
    var T := wrappers[c];
    assert topics[T := u] - {T} == topics - {T};
    assert topics[T := u][T := u.(refcnt := Max(0, u.refcnt - 1))] == topics[T := u.(refcnt := Max(0, u.refcnt - 1))];
  }

  lemma AddTopicCases(s: State, c: Cell, topicOk: bool)
    requires forall d :: d in s.wrappers ==> s.wrappers[d] in s.topics
    ensures var d := Partner(s.rules, c);
      AddTopic(s, c, topicOk) ==
        if c in s.wrappers then (s, Some(s.wrappers[c]))
        else if !topicOk then (s, None)
        else if d.Some? && d.value in s.wrappers then
          var T := s.wrappers[d.value];
          (Put(s, T, s.topics[T].(refcnt := s.topics[T].refcnt + 1)).(wrappers := s.wrappers[c := T]), Some(T))
        else
          (Put(s, s.nextTopic, EmptyTopic(Find(s.rules, c)))
             .(wrappers := s.wrappers[c := s.nextTopic], nextTopic := s.nextTopic + 1), Some(s.nextTopic))
  {
    hide Find, Partner;
  }

  lemma TableFacts(s: State)
    requires Inv(s)
    ensures Disjoint(s.rules) && s.nextTopic !in s.topics && forall c :: c in s.wrappers ==> s.wrappers[c] in s.topics
  {
  }

  lemma RefcntSilent(rules: map<int, Rule>, t: Topic, n: nat, notify: map<int, NotifyList>)
    requires Consistent(t) && NotifyOk(rules, t, notify)
    ensures Consistent(t.(refcnt := n)) && NotifyOk(rules, t.(refcnt := n), notify)
  {
    hide Count, Lists;
  }

  /** Mapping goes on from where the delivery left the store. */
  lemma MapAfterPut(s: State, T: int, t1: Topic)
    ensures forall id, domain, buffers, shm :: id in t1.subs ==>
      MapPublishers(s, T, t1, id, domain, buffers, shm) == MapPublishers(Put(s, T, t1), T, t1, id, domain, buffers, shm)
  {
    hide MappedInto, Unmappable, PoolsToMap;
    forall id, domain, buffers, shm | id in t1.subs
      ensures MapPublishers(s, T, t1, id, domain, buffers, shm)
        == MapPublishers(Put(s, T, t1), T, t1, id, domain, buffers, shm)
    {
      SameTargets(s, Put(s, T, t1), t1, t1.subs[id], domain);
      forall u ensures Put(Put(s, T, t1), T, u) == Put(s, T, u) {
        assert s.topics[T := t1][T := u] == s.topics[T := u];
      }
    }
  }

  lemma SameTargets(s: State, u: State, t: Topic, q: Subscriber, domain: nat)
    requires u.procs == s.procs && u.rules == s.rules
    ensures PoolsToMap(u, t, q, domain) == PoolsToMap(s, t, q, domain)
  {
  }

  lemma PoolsReachable(s: State)
    requires Inv(s)
    ensures forall p :: Alive(s.procs, p) ==> s.procs[p].pool < |s.pools|
  {
  }

  lemma ReceiveIs(w: World, t: Topic, id: int)
    requires id in t.subs
    ensures Receive(w, t, id) == HandedOut(t, id, Batch(w, t, t.subs[id]))
  {
  }

  lemma TakeIs(w: World, t: Topic, id: int, allowSame: bool)
    requires id in t.subs
    ensures Take(w, t, id, allowSame) == HandedOut(t, id, TakeCandidate(w, t, t.subs[id], allowSame))
  {
  }

  lemma HandedOutStays(rules: map<int, Rule>, t: Topic, id: int, batch: seq<Entry>, notify: map<int, NotifyList>)
    requires NotifyOk(rules, t, notify) && id in t.subs
    ensures NotifyOk(rules, HandedOut(t, id, batch), notify) && id in HandedOut(t, id, batch).subs
  {
    hide NotifyOk;
    HandedOutSilent(t, id, batch);
    ProgressSilent(rules, t, HandedOut(t, id, batch), notify);
  }

  function SubscribersAt(s: State, pid: int, ns: int, name: string): map<int, Subscriber> {
    var found := StoreAt(s, pid, ns, name);
    if found.Some? && found.value in s.topics then s.topics[found.value].subs else map[]
  }

  lemma ReleaseSilent(rules: map<int, Rule>, t: Topic, id: int, entry: int, notify: map<int, NotifyList>)
    requires NotifyOk(rules, t, notify)
    ensures NotifyOk(rules, Release(t, id, entry).0, notify)
  {
    hide NotifyOk;
    ProgressSilent(rules, t, Release(t, id, entry).0, notify);
  }

  lemma PutSame(s: State, T: int)
    requires T in s.topics
    ensures Put(s, T, s.topics[T]) == s
  {
  }

  lemma MmapFlagCleared(rules: map<int, Rule>, t: Topic, id: int, notify: map<int, NotifyList>)
    requires Consistent(t) && NotifyOk(rules, t, notify) && id in t.subs
    ensures var u := t.(subs := t.subs[id := t.subs[id].(needMmap := false)]);
      Consistent(u) && NotifyOk(rules, u, notify)
  {
    hide NotifyOk, Count;
    var u := t.(subs := t.subs[id := t.subs[id].(needMmap := false)]);
    SameDomainSameSize(u.subs, t.subs);
    assert forall e :: e in t.entries ==> HoldersOk(t.subs, e);
    assert forall e :: e in t.entries ==> HoldersOk(u.subs, e);
    ProgressSilent(rules, t, u, notify);
  }

  /** A store's arrays after a departure. */
  lemma AfterDeparture(rules: map<int, Rule>, t: Topic, u: Topic, lists: map<int, map<int, NotifyList>>, T: int,
                       after: map<int, NotifyList>)
    requires T in lists && NotifyOk(rules, t, lists[T]) && NotifyOk(rules, u, after)
    requires u.pubs.Keys <= t.pubs.Keys && CapacitiesKept(lists[T], after)
    ensures ArraysKeptOnLeave(lists, lists[T := after])
  {
    hide NotifyOk, CapacitiesKept;
    NotifyKeys(rules, t, lists[T]);
    NotifyKeys(rules, u, after);
    OneStoreLeaves(lists, T, after);
  }

  lemma FewerAfterSweep(t: Topic, gone: set<int>, doomed: set<int>)
    ensures Sweep(t, gone, doomed).pubs.Keys <= t.pubs.Keys
  {
    hide Swept, Count;
  }

  lemma FewerAfterRemoval(t: Topic, p: int)
    ensures RemovePublisher(t, p).pubs.Keys <= t.pubs.Keys
  {
    hide Sweep;
    FewerAfterSweep(t, {}, {p});
  }

  lemma FewerAfterExit(procs: map<int, Process>, t: Topic, pid: int)
    ensures Exit(procs, t, pid).pubs.Keys <= t.pubs.Keys
  {
    hide Sweep;
    var gone := SubscribersOf(t, pid);
    FewerAfterSweep(t, gone, if gone == {} then PublishersOf(t, pid) else DeadPublishers(procs, t));
  }
}
