// Zero-copy lifetime and delivery order, over whole runs.

module Lifetime {
  import opened Base
  import opened Seqs
  import opened Sets
  import opened TopicModel
  import opened StoreInvariant
  import opened DomainRules
  import opened Mempools
  import opened KernelModel
  import opened KernelInvariant
  import opened ProcessInvariant

  // ---------- A held message stays ----------

  /** Subscriber `q` holds the message with this id, which has this address and publisher. */
  ghost predicate Held(t: Topic, q: int, id: int, addr: int, p: int) {
    exists e :: e in t.entries && e.id == id && e.addr == addr && e.publisher == p && q in e.refs
  }

  ghost predicate HeldIn(s: State, T: int, q: int, id: int, addr: int, p: int) {
    T in s.topics && Held(s.topics[T], q, id, addr, p)
  }

  /** What may end a hold: the release itself, the subscriber leaving, its process exiting. */
  predicate EndsHold(s: State, op: Op, T: int, q: int, id: int) {
    || (op.ReleaseRef? && StoreAt(s, op.pid, op.ns, op.name) == Some(T) && op.id == q && op.entry == id)
    || (op.LeaveSubscriber? && StoreAt(s, op.pid, op.ns, op.name) == Some(T) && op.id == q)
    || (op.ProcessExit? && T in s.topics && q in s.topics[T].subs && s.topics[T].subs[q].pid == op.pid)
  }

  lemma HandedOutHeld(t: Topic, s: int, batch: seq<Entry>, q: int, id: int, addr: int, p: int)
    requires s in t.subs && Held(t, q, id, addr, p)
    ensures Held(HandedOut(t, s, batch), q, id, addr, p)
  {
    var u := HandedOut(t, s, batch);
    var i :| 0 <= i < |t.entries| && t.entries[i].id == id && t.entries[i].addr == addr &&
      t.entries[i].publisher == p && q in t.entries[i].refs;
    assert u.entries[i] in u.entries;
  }

  lemma ReleaseHeld(t: Topic, s: int, entry: int, q: int, id: int, addr: int, p: int)
    requires Held(t, q, id, addr, p) && !(s == q && entry == id)
    ensures Held(Release(t, s, entry).0, q, id, addr, p)
  {
    var u := Release(t, s, entry).0;
    var i :| 0 <= i < |t.entries| && t.entries[i].id == id && t.entries[i].addr == addr &&
      t.entries[i].publisher == p && q in t.entries[i].refs;
    assert u.entries[i] in u.entries;
  }

  lemma PublishedHeld(t: Topic, w: int, at: int, q: int, id: int, addr: int, p: int)
    requires Consistent(t) && w in t.pubs && Held(t, q, id, addr, p)
    ensures Held(Published(t, w, at), q, id, addr, p)
  {
    hide Filter, Reclaimable, Consistent;
    var t1 := Inserted(t, w, at);
    InsertedKeeps(t, w, at);
    assert Ascending(t1.entries) by { StoreAscending(t1); }
    ReclaimableFacts(t1, w);
    var e :| e in t.entries && e.id == id && e.addr == addr && e.publisher == p && q in e.refs;
    assert e in t1.entries && e !in Reclaimable(t1, w);
    FilterMember(t1.entries, NotAmong(Reclaimable(t1, w)), e);
  }

  lemma SweepHeld(t: Topic, gone: set<int>, doomed: set<int>, q: int, id: int, addr: int, p: int)
    requires Held(t, q, id, addr, p) && q !in gone
    ensures Held(Sweep(t, gone, doomed), q, id, addr, p)
  {
    hide Swept, Count;
    var i :| 0 <= i < |t.entries| && t.entries[i].id == id && t.entries[i].addr == addr &&
      t.entries[i].publisher == p && q in t.entries[i].refs;
    var e := t.entries[i].(refs := t.entries[i].refs - gone);
    assert q in e.refs;
    SweptMember(t.entries, gone, doomed, e);
  }

  lemma HeldHasSubscriber(t: Topic, q: int, id: int, addr: int, p: int)
    requires Consistent(t) && Held(t, q, id, addr, p)
    ensures q in t.subs && t.entries != [] && t.subs != map[]
  {
    hide CountsOk, IdsOk;
    var e :| e in t.entries && e.id == id && e.addr == addr && e.publisher == p && q in e.refs;
    assert HoldersOk(t.subs, e);
  }

  /** A store someone holds a message of survives the release of a wrapper. */
  lemma ReleaseWrapperHeld(s: State, c: Cell, T: int, q: int, id: int, addr: int, p: int)
    requires Inv(s) && c in s.wrappers && s.wrappers[c] in s.topics && HeldIn(s, T, q, id, addr, p)
    ensures HeldIn(ReleaseWrapper(s, c), T, q, id, addr, p)
  {
    hide Inv, HasDomainEndpoint;
    StoreFacts(s, T);
    HeldHasSubscriber(s.topics[T], q, id, addr, p);
    if s.wrappers[c] == T && s.topics[T].refcnt <= 1 && !HasDomainEndpoint(s.topics[T], c.domain) {
      StoreFacts(s, s.wrappers[c]);
      ReferencesCounted(s, s.wrappers[c]);
      LastReleaseFindsNothing(s.wrappers, c, s.topics[s.wrappers[c]]);
    }
  }

  lemma LeaveHeld(s: State, R: int, u: Topic, c: Cell, T: int, q: int, id: int, addr: int, p: int)
    requires Inv(Put(s, R, u)) && R in s.topics && c in s.wrappers && s.wrappers[c] == R
    requires HeldIn(s, T, q, id, addr, p) && (R == T ==> Held(u, q, id, addr, p))
    ensures HeldIn(ReleaseWrapper(Put(s, R, u), c), T, q, id, addr, p)
  {
    hide Inv, Held, ReleaseWrapper;
    ReleaseWrapperHeld(Put(s, R, u), c, T, q, id, addr, p);
  }

  lemma ExitHeld(s: State, pid: int, T: int, q: int, id: int, addr: int, p: int)
    requires Inv(s) && HeldIn(s, T, q, id, addr, p)
    requires q in s.topics[T].subs ==> s.topics[T].subs[q].pid != pid
    ensures HeldIn(DoExit(s, pid), T, q, id, addr, p)
  {
    hide Inv, Sweep, Exited, HasDomainEndpoint, Held, CellsOf;
    if pid in s.procs {
      var procs := Exited(s.procs, pid);
      var t, u := s.topics[T], Exit(procs, s.topics[T], pid);
      StoreFacts(s, T);
      HeldHasSubscriber(t, q, id, addr, p);
      var gone := SubscribersOf(t, pid);
      SweepHeld(t, gone, if gone == {} then PublishersOf(t, pid) else DeadPublishers(procs, t), q, id, addr, p);
      SweepSubs(t, gone, if gone == {} then PublishersOf(t, pid) else DeadPublishers(procs, t));
      var topics := ExitTopics(procs, s.topics, pid);
      StaysReferred(s, topics, T, q);
      RefcntHeld(u, |CellsOf(InUse(s.wrappers, topics), T)|, q, id, addr, p);
    }
  }

  lemma RefcntHeld(t: Topic, n: nat, q: int, id: int, addr: int, p: int)
    requires Held(t, q, id, addr, p)
    ensures Held(t.(refcnt := n), q, id, addr, p)
  {
  }

  lemma StaysReferred(s: State, topics: map<int, Topic>, T: int, q: int)
    requires T in s.topics && T in topics && Homed(s.wrappers, T, s.topics[T])
    requires q in s.topics[T].subs && q in topics[T].subs && topics[T].subs[q] == s.topics[T].subs[q]
    ensures CellsOf(InUse(s.wrappers, topics), T) != {}
  {
    var c :| c in CellsOf(s.wrappers, T) && c.domain == s.topics[T].subs[q].domain;
    assert c in InUse(s.wrappers, topics);
    assert c in CellsOf(InUse(s.wrappers, topics), T);
  }

  /** Finding or creating a wrapper changes nothing of an existing store but its reference count. */
  lemma AddTopicSpares(s: State, c: Cell, topicOk: bool, T: int)
    requires T in s.topics && T < s.nextTopic
    ensures var u := AddTopic(s, c, topicOk).0;
      T in u.topics && u.topics[T] == s.topics[T].(refcnt := u.topics[T].refcnt)
  {
    hide Find, Partner;
  }

  lemma JoinSpares(t: Topic, domain: nat, a: SubArgs, b: PubArgs, fault: Fault)
    ensures AddSubscriber(t, domain, a, fault).0.entries == t.entries
    ensures AddPublisher(t, domain, b, fault).0.entries == t.entries
  {
  }

  lemma JoinHeld(s: State, op: Op, T: int, q: int, id: int, addr: int, p: int)
    requires Inv(s) && HeldIn(s, T, q, id, addr, p) && (op.JoinSubscriber? || op.JoinPublisher?)
    ensures HeldIn(Step(s, op).0, T, q, id, addr, p)
  {
    hide Inv, AddTopic, AddSubscriber, AddPublisher, Held;
    StoreFacts(s, T);
    var u := Step(s, op).0;
    var pid := if op.JoinSubscriber? then op.subArgs.pid else op.pubArgs.pid;
    var domain := DomainOf(s.procs, pid);
    AddTopicSpares(s, Cell(op.ns, op.name, domain), op.topicOk, T);
    var t1 := AddTopic(s, Cell(op.ns, op.name, domain), op.topicOk).0.topics[T];
    if op.JoinSubscriber? {
      JoinSpares(t1, domain, op.subArgs, PubArgs(0, 0, false), op.fault);
    } else {
      JoinSpares(t1, domain, SubArgs(0, 0, false, false, false, None), op.pubArgs, op.fault);
    }
    FlagHeld(s.topics[T], u.topics[T], q, id, addr, p);
  }

  lemma DeliveryHeld(s: State, R: int, r: int, batch: seq<Entry>, domain: nat, buffers: nat, shm: ShmFault,
                     T: int, q: int, id: int, addr: int, p: int)
    requires R in s.topics && r in s.topics[R].subs && HeldIn(s, T, q, id, addr, p)
    requires r in HandedOut(s.topics[R], r, batch).subs
    ensures HeldIn(MapPublishers(s, R, HandedOut(s.topics[R], r, batch), r, domain, buffers, shm).0, T, q, id, addr, p)
  {
    hide HandedOut, PoolsToMap, Unmappable, MappedInto, Held;
    if R == T {
      HandedOutHeld(s.topics[R], r, batch, q, id, addr, p);
    }
    var u := HandedOut(s.topics[R], r, batch);
    FlagHeld(u, u.(subs := u.subs[r := u.subs[r].(needMmap := false)]), q, id, addr, p);
  }

  lemma FlagHeld(t: Topic, u: Topic, q: int, id: int, addr: int, p: int)
    requires u.entries == t.entries
    ensures Held(t, q, id, addr, p) <==> Held(u, q, id, addr, p)
  {
  }

  lemma StepKeepsHeld(s: State, op: Op, T: int, q: int, id: int, addr: int, p: int)
    requires Inv(s) && Allowed(s, op) && HeldIn(s, T, q, id, addr, p) && !EndsHold(s, op, T, q, id)
    ensures HeldIn(Step(s, op).0, T, q, id, addr, p)
  {
    hide Inv, Held, AddExact, AddPrefix, AddTopic, HandedOut, Batch, TakeCandidate, Window, MapPublishers, Published,
         Inserted, Reclaimable, WalkRunsOff, Release, Sweep, ReleaseWrapper, DoExit, FirstFree, Assign, Free, HasDaemon,
         HasManager, HasAgent, ProcessesOf, ProcessesIn, AliveIn, DoAddProcess, DoCheckBridgeShutdown, DoAddAgent,
         DoAgentShouldExit, DoCommitExit;
    match op {
      case JoinSubscriber(_, _, _, _, _) => JoinHeld(s, op, T, q, id, addr, p);
      case JoinPublisher(_, _, _, _, _) => JoinHeld(s, op, T, q, id, addr, p);
      case PublishMsg(pid, ns, name, w, at, ok) =>
        if StoreAt(s, pid, ns, name) == Some(T) && w in s.topics[T].pubs {
          StoreFacts(s, T);
          PublishedHeld(s.topics[T], w, at, q, id, addr, p);
        }
      case ReceiveMsg(pid, ns, name, r, b, shm) =>
        var found := StoreAt(s, pid, ns, name);
        if found.Some? && r in s.topics[found.value].subs {
          var t := s.topics[found.value];
          HandedOutKeepsSub(t, r, Batch(WorldOf(s), t, t.subs[r]));
          DeliveryHeld(s, found.value, r, Batch(WorldOf(s), t, t.subs[r]), DomainOf(s.procs, pid), b, shm, T, q, id,
              addr, p);
        }
      case TakeMsg(pid, ns, name, r, same, b, shm) =>
        var found := StoreAt(s, pid, ns, name);
        if found.Some? && r in s.topics[found.value].subs {
          var t := s.topics[found.value];
          HandedOutKeepsSub(t, r, TakeCandidate(WorldOf(s), t, t.subs[r], same));
          DeliveryHeld(s, found.value, r, TakeCandidate(WorldOf(s), t, t.subs[r], same), DomainOf(s.procs, pid), b,
              shm, T, q, id, addr, p);
        }
      case ReleaseRef(pid, ns, name, r, entry) =>
        if StoreAt(s, pid, ns, name) == Some(T) {
          ReleaseHeld(s.topics[T], r, entry, q, id, addr, p);
        }
      case LeaveSubscriber(pid, ns, name, r) =>
        var found := StoreAt(s, pid, ns, name);
        if found.Some? && r in s.topics[found.value].subs {
          var doomed := DeadPublishers(s.procs, s.topics[found.value]);
          if found.value == T { SweepHeld(s.topics[T], {r}, doomed, q, id, addr, p); }
          SubscriberRemoved(s, found.value, r);
          LeaveHeld(s, found.value, Sweep(s.topics[found.value], {r}, doomed), Cell(ns, name, DomainOf(s.procs, pid)),
              T, q, id, addr, p);
        }
      case LeavePublisher(pid, ns, name, r) =>
        var found := StoreAt(s, pid, ns, name);
        if found.Some? && r in s.topics[found.value].pubs {
          if found.value == T { SweepHeld(s.topics[T], {}, {r}, q, id, addr, p); }
          PublisherRemoved(s, found.value, r);
          LeaveHeld(s, found.value, Sweep(s.topics[found.value], {}, {r}), Cell(ns, name, DomainOf(s.procs, pid)), T,
              q, id, addr, p);
        }
      case ProcessExit(pid) => ExitHeld(s, pid, T, q, id, addr, p);
      case _ => AdministrativeStep(s, op);
    }
  }

  lemma HandedOutKeepsSub(t: Topic, s: int, batch: seq<Entry>)
    requires s in t.subs
    ensures s in HandedOut(t, s, batch).subs
  {
  }

  /**
    Zero-copy lifetime. From the moment a subscriber holds a message, the message stays in its tree
    with the same address and publisher, and stays held, until the subscriber releases it, leaves,
    or its process exits, whatever else happens, including the publisher's death.
   */
  lemma {:induction false} HeldUntilReleased(states: seq<State>, ops: seq<Op>, i: nat, j: nat, T: int, q: int,
      id: int, addr: int, p: int)
    requires Run(states, ops) && i <= j < |states|
    requires HeldIn(states[i], T, q, id, addr, p)
    requires forall m :: i <= m < j ==> !EndsHold(states[m], ops[m], T, q, id)
    ensures HeldIn(states[j], T, q, id, addr, p)
  {
    hide Inv, Init, Allowed, Step, HeldIn, EndsHold;
    if i < j {
      HeldUntilReleased(states, ops, i, j - 1, T, q, id, addr, p);
      RunKeeps(states, ops, j - 1);
      StepKeepsHeld(states[j - 1], ops[j - 1], T, q, id, addr, p);
    }
  }
}
