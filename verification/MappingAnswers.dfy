// Which pools a receive or take maps, and why a process is on a pool's list at all.

module MappingAnswers {
  import opened Base
  import opened Seqs
  import opened TopicModel
  import opened StoreInvariant
  import opened DomainRules
  import opened Mempools
  import opened KernelModel
  import opened KernelInvariant
  import opened ProcessInvariant
  import opened Lifetime
  import opened DeliveryOrder
  import opened SharedMemory
  import opened Answers

  /** Some message of publisher `p` could be delivered to `q`. */
  ghost predicate CouldDeliver(w: World, t: Topic, q: Subscriber, p: int) {
    exists e: Entry :: e.publisher == p && Deliverable(w, t, q, e)
  }

  /** Another process, whose pool is `k`, has a publisher in the store that could deliver to subscriber `q`. */
  ghost predicate SourceIn(s: State, T: int, q: int, k: int)
    requires T in s.topics && q in s.topics[T].subs
  {
    var t := s.topics[T];
    exists p :: p in t.pubs && t.pubs[p].pid != t.subs[q].pid && CouldDeliver(WorldOf(s), t, t.subs[q], p)
      && t.pubs[p].pid in s.procs && s.procs[t.pubs[p].pid].pool == k
  }

  lemma DeliversByPublisher(s: State, t: Topic, q: Subscriber, p: int)
    requires p in t.pubs && t.pubs[p].pid != q.pid
    ensures CouldDeliver(WorldOf(s), t, q, p) <==>
      !Dead(s.procs, t.pubs[p].pid) && Allows(s.rules, t.rule, t.pubs[p], q)
  {
    hide DeliveryAllowed;
    if !Dead(s.procs, t.pubs[p].pid) && Allows(s.rules, t.rule, t.pubs[p], q) {
      assert Deliverable(WorldOf(s), t, q, Entry(0, p, 0, {}));
    }
  }

  lemma TargetsAreSources(s: State, T: int, q: int)
    requires T in s.topics && q in s.topics[T].subs
    ensures var t := s.topics[T];
      forall k :: k in PoolsToMap(s, t, t.subs[q], t.subs[q].domain) <==> SourceIn(s, T, q, k)
  {
    hide CouldDeliver, Allows;
    var t := s.topics[T];
    assert t.subs[q].(domain := t.subs[q].domain) == t.subs[q];
    forall p | p in t.pubs && t.pubs[p].pid != t.subs[q].pid
      ensures CouldDeliver(WorldOf(s), t, t.subs[q], p) <==>
        !Dead(s.procs, t.pubs[p].pid) && Allows(s.rules, t.rule, t.pubs[p], t.subs[q])
    {
      DeliversByPublisher(s, t, t.subs[q], p);
    }
  }

  /** The pools the subscriber's process lacks. */
  ghost function Missing(s: State, T: int, q: int): set<int>
    requires T in s.topics && q in s.topics[T].subs
  {
    set k | 0 <= k < |s.pools| && s.topics[T].subs[q].pid !in s.pools[k].pids && SourceIn(s, T, q, k)
  }

  predicate Lists(pools: seq<Pool>, k: int, pid: int) {
    0 <= k < |pools| && pid in pools[k].pids
  }

  /** Nobody but `pid` gains or loses a mapping, and `pid` gains those among `gained`, at least if `all`. */
  ghost predicate Gains(before: seq<Pool>, after: seq<Pool>, pid: int, gained: set<int>, all: bool) {
    && |after| == |before|
    && (forall k, x :: x != pid ==> (Lists(after, k, x) <==> Lists(before, k, x)))
    && (forall k :: Lists(before, k, pid) ==> Lists(after, k, pid))
    && (forall k :: Lists(after, k, pid) ==> Lists(before, k, pid) || k in gained)
    && (all ==> forall k :: k in gained ==> Lists(after, k, pid))
  }

  /**
    The mapping stage of a receive or take. A subscriber that asks for mappings gets exactly the pools
    it lacks of other living processes with a publisher that could deliver to it, is told how many they
    are, and stops asking; or it fails for want of memory or of room to report them, has at most some
    of them, and keeps asking. A subscriber that does not ask gets nothing.
   */
  lemma MappingAnswer(s: State, op: Op, T: int)
    requires Inv(s) && Allowed(s, op) && (op.ReceiveMsg? || op.TakeMsg?) && DeliversTo(s, op, T, op.id)
    ensures var u, result := Step(s, op).0, Step(s, op).1.result;
      var q, missing := s.topics[T].subs[op.id], Missing(s, T, op.id);
      && T in u.topics && op.id in u.topics[T].subs
      && u.topics[T].subs[op.id].needMmap == (q.needMmap && result.Err?)
      && if !q.needMmap then result == Ok(0) && u.pools == s.pools
         else
           && result == (if op.shm.fails then Err(ENOMEM) else if |missing| > op.buffers then Err(ENOBUFS)
                         else Ok(|missing|))
           && Gains(s.pools, u.pools, q.pid, missing, result.Ok?)
  {
    hide Inv, Batch, TakeCandidate, HandedOut, MapPublishers, Missing, Gains, Step, Consistent, NoStaleDead, Homed;
    var t := s.topics[T];
    var batch := if op.ReceiveMsg? then Batch(WorldOf(s), t, t.subs[op.id])
      else TakeCandidate(WorldOf(s), t, t.subs[op.id], AllowsSame(op));
    StoreFacts(s, T);
    if op.ReceiveMsg? {
      ReceiveIs(s, op, T);
    } else {
      TakeIs(s, op, T);
    }
    assert DomainOf(s.procs, op.pid) == t.subs[op.id].domain;
    StageAnswer(s, T, op.id, batch, op.buffers, op.shm);
  }

  lemma StageAnswer(s: State, T: int, q: int, batch: seq<Entry>, buffers: nat, shm: ShmFault)
    requires Inv(s) && T in s.topics && q in s.topics[T].subs
    requires q in HandedOut(s.topics[T], q, batch).subs
    ensures var t := s.topics[T];
      var (u, result) := MapPublishers(s, T, HandedOut(t, q, batch), q, t.subs[q].domain, buffers, shm);
      var missing := Missing(s, T, q);
      && T in u.topics && q in u.topics[T].subs
      && u.topics[T].subs[q].needMmap == (t.subs[q].needMmap && result.Err?)
      && if !t.subs[q].needMmap then result == Ok(0) && u.pools == s.pools
         else
           && result == (if shm.fails then Err(ENOMEM) else if |missing| > buffers then Err(ENOBUFS)
                         else Ok(|missing|))
           && Gains(s.pools, u.pools, t.subs[q].pid, missing, result.Ok?)
  {
    hide Inv, HandedOut, PoolsToMap, MappedInto, Unmappable, Missing, Gains, SourceIn;
    var t, v := s.topics[T], HandedOut(s.topics[T], q, batch);
    HandedOutSub(t, q, batch);
    PoolsToMapSame(s, t, v, q, batch, t.subs[q].domain);
    var targets := PoolsToMap(s, t, t.subs[q], t.subs[q].domain);
    TargetsAreSources(s, T, q);
    MissingAre(s, T, q, targets);
    MemoryFacts(s);
    GainsOf(s.pools, targets, targets * shm.done, t.subs[q].pid);
  }

  lemma MissingAre(s: State, T: int, q: int, targets: set<int>)
    requires Inv(s) && T in s.topics && q in s.topics[T].subs
    requires forall k :: k in targets <==> SourceIn(s, T, q, k)
    ensures Missing(s, T, q) == Unmappable(s.pools, targets, s.topics[T].subs[q].pid)
  {
    hide Inv, SourceIn;
  }

  lemma GainsOf(pools: seq<Pool>, targets: set<int>, some: set<int>, pid: int)
    requires PoolsOk(pools) && some <= targets
    ensures Gains(pools, MappedInto(pools, targets, pid), pid, Unmappable(pools, targets, pid), true)
    ensures Gains(pools, MappedInto(pools, some, pid), pid, Unmappable(pools, targets, pid), false)
  {
    hide PoolOk, MappedInto;
    MappedIntoFacts(pools, targets, pid);
    MappedIntoFacts(pools, some, pid);
  }

  // ---------- Over runs ----------

  /** A subscriber of process `pid` could be delivered messages from pool `k`. */
  ghost predicate Reads(s: State, pid: int, k: int) {
    exists T, q :: T in s.topics && q in s.topics[T].subs && s.topics[T].subs[q].pid == pid && SourceIn(s, T, q, k)
  }

  ghost predicate OwnPool(s: State, pid: int, k: int) {
    pid in s.procs && s.procs[pid].pool == k
  }

  /** A process comes on a pool's list only by registering or by mapping the pool for a subscriber. */
  lemma NewListing(s: State, op: Op, pid: int, k: int)
    requires Inv(s) && Allowed(s, op) && Lists(Step(s, op).0.pools, k, pid) && !Lists(s.pools, k, pid)
    ensures OwnPool(Step(s, op).0, pid, k) || Reads(s, pid, k)
  {
    hide Inv, Reads, SourceIn, AddExact, AddPrefix, DoJoinSubscriber, DoJoinPublisher, DoReceive, DoTake,
         DoLeaveSubscriber, DoLeavePublisher, DoExit, HasDaemon, HasManager, HasAgent, ProcessesOf, ProcessesIn,
         AliveIn, Published, Inserted, WalkRunsOff, Reclaimable, Release, FirstFree, Assign, Free;
    PoolsSound(s);
    if op.ReceiveMsg? || op.TakeMsg? {
      DeliveryListing(s, op, pid, k);
    } else if op.JoinSubscriber? || op.JoinPublisher? {
      JoiningKeepsPools(s, op);
    } else if op.LeaveSubscriber? || op.LeavePublisher? {
      LeavingKeepsPools(s, op);
    } else if op.ProcessExit? {
      ExitListing(s, op.pid, pid, k);
    } else if op.CommitExit? {
      FreeKeeps(s.pools, op.caller);
    } else if op.AddProcess? {
      AssignKeeps(s.pools, op.pid);
      AssignLayout(s.pools, op.pid);
    }
  }

  lemma PoolsSound(s: State)
    requires Inv(s)
    ensures PoolsOk(s.pools)
  {
  }

  lemma ExitListing(s: State, dead: int, pid: int, k: int)
    requires PoolsOk(s.pools)
    ensures Lists(DoExit(s, dead).pools, k, pid) ==> Lists(s.pools, k, pid)
  {
    hide Free, ExitTopics, InUse, Referred, Exited;
    FreeKeeps(s.pools, dead);
    FreeLength(s.pools, dead);
  }

  lemma DeliveryListing(s: State, op: Op, pid: int, k: int)
    requires Inv(s) && Allowed(s, op) && (op.ReceiveMsg? || op.TakeMsg?)
    requires Lists(Step(s, op).0.pools, k, pid) && !Lists(s.pools, k, pid)
    ensures Reads(s, pid, k)
  {
    hide Inv, Allowed, SourceIn, MapPublishers, HandedOut, Batch, Window, TakeCandidate;
    var found := StoreAt(s, op.pid, op.ns, op.name);
    if found.Some? && op.id in s.topics[found.value].subs {
      MappingAnswer(s, op, found.value);
      hide Step;
      assert k in Missing(s, found.value, op.id);
      ReadsBy(s, found.value, op.id, k);
    }
  }

  lemma ReadsBy(s: State, T: int, q: int, k: int)
    requires T in s.topics && q in s.topics[T].subs && SourceIn(s, T, q, k)
    ensures Reads(s, s.topics[T].subs[q].pid, k)
  {
    hide SourceIn;
  }

  lemma OwnPoolStays(s: State, op: Op, pid: int, k: int)
    requires OwnPool(s, pid, k) && pid in Step(s, op).0.procs
    ensures OwnPool(Step(s, op).0, pid, k)
  {
    hide AddTopic, AddSubscriber, AddPublisher, Published, Inserted, WalkRunsOff, Reclaimable, HandedOut, Batch,
         TakeCandidate, Window, Sweep, HasDomainEndpoint, MappedInto, PoolsToMap, Unmappable, FirstFree, Assign, Free,
         ExitTopics, InUse, Referred, HasDaemon, HasManager, HasAgent, ProcessesOf, ProcessesIn, AliveIn, Release,
         AddExact, AddPrefix;
    if op.JoinSubscriber? {
      AddTopicElsewhere(s, Cell(op.ns, op.name, DomainOf(s.procs, op.subArgs.pid)), op.topicOk);
    } else if op.JoinPublisher? {
      AddTopicElsewhere(s, Cell(op.ns, op.name, DomainOf(s.procs, op.pubArgs.pid)), op.topicOk);
    }
  }

  /** In state `i` a subscriber of the process read from the pool, and the pool has listed the process ever since. */
  ghost predicate ListedSince(states: seq<State>, i: nat, n: nat, pid: int, k: int)
    requires n < |states|
  {
    i < n && Reads(states[i], pid, k) && forall j :: i < j <= n ==> Lists(states[j].pools, k, pid)
  }

  /**
    A process is on the list of a pool only because the pool is its own, or because a subscriber of it
    mapped the pool when a publisher from it could deliver to the subscriber.
   */
  lemma {:induction false} ListedForAReason(states: seq<State>, ops: seq<Op>, n: nat, pid: int, k: int)
    requires Run(states, ops) && n < |states| && Lists(states[n].pools, k, pid)
    ensures OwnPool(states[n], pid, k) || exists i :: ListedSince(states, i, n, pid, k)
  {
    hide Inv, Init, Allowed, Step, Reads, OwnPool, Lists;
    if n == 0 {
      NobodyListed(states[0], pid, k);
    } else {
      RunKeeps(states, ops, n - 1);
      RunKeeps(states, ops, n);
      assert states[(n - 1) + 1] == Step(states[n - 1], ops[n - 1]).0;
      if Lists(states[n - 1].pools, k, pid) {
        ListedForAReason(states, ops, n - 1, pid, k);
        if OwnPool(states[n - 1], pid, k) {
          ListedIsRegistered(states[n], pid, k);
          OwnPoolStays(states[n - 1], ops[n - 1], pid, k);
        } else {
          var i :| ListedSince(states, i, n - 1, pid, k);
          assert ListedSince(states, i, n, pid, k);
        }
      } else {
        NewListing(states[n - 1], ops[n - 1], pid, k);
        if Reads(states[n - 1], pid, k) {
          assert ListedSince(states, n - 1, n, pid, k);
        }
      }
    }
  }

  lemma NobodyListed(s: State, pid: int, k: int)
    requires Init(s)
    ensures !Lists(s.pools, k, pid)
  {
  }

  lemma ListedIsRegistered(s: State, pid: int, k: int)
    requires Inv(s) && Lists(s.pools, k, pid)
    ensures pid in s.procs
  {
    hide StoresOk, LiveOk, GroupingOk, RulesOk, RegistryOk, PoolsOk, LaidOut;
    assert pid in s.pools[k].pids && Alive(s.procs, pid);
  }
}
