// How a store evolves over a run, and what follows for reclaimed addresses and delivery order.

module DeliveryOrder {
  import opened Base
  import opened Seqs
  import opened Sets
  import opened TopicModel
  import opened StoreInvariant
  import opened DomainRules
  import opened KernelModel
  import opened KernelInvariant
  import opened ProcessInvariant
  import opened Lifetime

  // ---------- Evolution of one store ----------

  predicate SameMessage(d: Entry, e: Entry) {
    d.id == e.id && d.addr == e.addr && d.publisher == e.publisher
  }

  /** Ids only grow, nothing old reappears, and no subscriber's progress is undone. */
  ghost predicate Evolves(t: Topic, u: Topic) {
    && t.nextEntry <= u.nextEntry && t.nextId <= u.nextId
    && (forall e :: e in u.entries && e.id < t.nextEntry ==> exists d :: d in t.entries && SameMessage(d, e))
    && (forall q :: q in u.subs && q < t.nextId ==> q in t.subs && t.subs[q].latest <= u.subs[q].latest)
  }

  lemma EvolvesOnward(t: Topic, u: Topic, v: Topic)
    requires Evolves(t, u) && Evolves(u, v)
    ensures Evolves(t, v)
  {
    forall e | e in v.entries && e.id < t.nextEntry ensures exists d :: d in t.entries && SameMessage(d, e) {
      var d :| d in u.entries && SameMessage(d, e);
      var c :| c in t.entries && SameMessage(c, d);
      assert SameMessage(c, e);
    }
  }

  /** The tree's messages are kept or dropped, the subscribers too. */
  lemma EvolvesByLoss(t: Topic, u: Topic)
    requires u.nextEntry == t.nextEntry && u.nextId == t.nextId
    requires forall e :: e in u.entries ==> exists d :: d in t.entries && SameMessage(d, e)
    requires forall q :: q in u.subs ==> q in t.subs && t.subs[q].latest <= u.subs[q].latest
    ensures Evolves(t, u)
  {
  }

  lemma HandedOutEvolves(t: Topic, s: int, batch: seq<Entry>)
    requires Takeable(t, s, batch)
    ensures Evolves(t, HandedOut(t, s, batch))
  {
    var u := HandedOut(t, s, batch);
    forall e | e in u.entries ensures exists d :: d in t.entries && SameMessage(d, e) {
      var i :| 0 <= i < |u.entries| && u.entries[i] == e;
      assert t.entries[i] in t.entries && SameMessage(t.entries[i], e);
    }
    if batch != [] {
      assert batch[|batch| - 1] in batch;
    }
    EvolvesByLoss(t, u);
  }

  lemma ReleaseEvolves(t: Topic, s: int, id: int)
    ensures Evolves(t, Release(t, s, id).0)
  {
    var u := Release(t, s, id).0;
    forall e | e in u.entries ensures exists d :: d in t.entries && SameMessage(d, e) {
      var i :| 0 <= i < |u.entries| && u.entries[i] == e;
      assert t.entries[i] in t.entries && SameMessage(t.entries[i], e);
    }
    EvolvesByLoss(t, u);
  }

  lemma SweepEvolves(t: Topic, gone: set<int>, doomed: set<int>)
    ensures Evolves(t, Sweep(t, gone, doomed))
  {
    hide Swept, Count, Recounted;
    var u := Sweep(t, gone, doomed);
    forall e | e in u.entries ensures exists d :: d in t.entries && SameMessage(d, e) {
      SweptMember(t.entries, gone, doomed, e);
      var i :| 0 <= i < |t.entries| && e == t.entries[i].(refs := t.entries[i].refs - gone);
      assert t.entries[i] in t.entries && SameMessage(t.entries[i], e);
    }
    EvolvesByLoss(t, u);
  }

  lemma PublishedEvolves(t: Topic, p: int, addr: int)
    requires p in t.pubs
    ensures Evolves(t, Published(t, p, addr))
  {
    hide Filter, Reclaimable;
    var t1 := Inserted(t, p, addr);
    FilterMembers(t1.entries, NotAmong(Reclaimable(t1, p)));
    forall e | e in Published(t, p, addr).entries && e.id < t.nextEntry
      ensures exists d :: d in t.entries && SameMessage(d, e)
    {
      assert e in t1.entries;
      assert e in t.entries && SameMessage(e, e);
    }
  }

  lemma JoinEvolves(t: Topic, domain: nat, a: SubArgs, b: PubArgs, fault: Fault)
    ensures Evolves(t, AddSubscriber(t, domain, a, fault).0)
    ensures Evolves(t, AddPublisher(t, domain, b, fault).0)
  {
    assert forall e :: SameMessage(e, e);
  }

  lemma SameStoreEvolves(t: Topic, u: Topic)
    requires u.entries == t.entries && u.nextEntry == t.nextEntry && u.nextId == t.nextId
    requires u.subs.Keys == t.subs.Keys && forall q :: q in t.subs ==> u.subs[q].latest == t.subs[q].latest
    ensures Evolves(t, u)
  {
    assert forall e :: SameMessage(e, e);
  }

  // ---------- Evolution over steps and runs ----------

  /** A store that exists before and after a step evolved; one that is gone does not come back. */
  ghost predicate StoreStep(s: State, u: State, T: int) {
    && s.nextTopic <= u.nextTopic
    && (T < s.nextTopic && T !in s.topics ==> T !in u.topics)
    && (T in s.topics && T in u.topics ==> Evolves(s.topics[T], u.topics[T]))
  }

  lemma QuietStoreStep(s: State, u: State, T: int)
    requires u.topics == s.topics && u.nextTopic == s.nextTopic
    ensures StoreStep(s, u, T)
  {
    if T in s.topics {
      SameStoreEvolves(s.topics[T], s.topics[T]);
    }
  }

  lemma PutStoreStep(s: State, R: int, v: Topic, T: int)
    requires R in s.topics && Evolves(s.topics[R], v)
    ensures StoreStep(s, Put(s, R, v), T)
  {
    if T in s.topics {
      SameStoreEvolves(s.topics[T], s.topics[T]);
    }
  }

  lemma ReleaseWrapperStep(s: State, s1: State, c: Cell, T: int)
    requires c in s1.wrappers && s1.wrappers[c] in s1.topics && StoreStep(s, s1, T)
    requires T in s1.topics ==> T in s.topics
    ensures StoreStep(s, ReleaseWrapper(s1, c), T)
  {
    hide HasDomainEndpoint, Evolves;
    var u := ReleaseWrapper(s1, c);
    if T in u.topics {
      SameStoreEvolves(s1.topics[T], u.topics[T]);
      EvolvesOnward(s.topics[T], s1.topics[T], u.topics[T]);
    }
  }

  lemma DeliveryStoreStep(s: State, R: int, r: int, batch: seq<Entry>, domain: nat, buffers: nat, shm: ShmFault, T: int)
    requires R in s.topics && r in s.topics[R].subs && Takeable(s.topics[R], r, batch)
    requires r in HandedOut(s.topics[R], r, batch).subs
    ensures StoreStep(s, MapPublishers(s, R, HandedOut(s.topics[R], r, batch), r, domain, buffers, shm).0, T)
  {
    hide HandedOut, PoolsToMap, Unmappable, MappedInto, Evolves, Takeable;
    var t := s.topics[R];
    var u := HandedOut(t, r, batch);
    var v := u.(subs := u.subs[r := u.subs[r].(needMmap := false)]);
    HandedOutEvolves(t, r, batch);
    SameStoreEvolves(u, v);
    EvolvesOnward(t, u, v);
    PutStoreStep(s, R, u, T);
    PutStoreStep(s, R, v, T);
  }

  lemma JoinStoreStep(s: State, op: Op, T: int)
    requires Inv(s) && (op.JoinSubscriber? || op.JoinPublisher?)
    ensures StoreStep(s, Step(s, op).0, T)
  {
    hide Inv, AddTopic, AddSubscriber, AddPublisher, Evolves;
    var u := Step(s, op).0;
    var pid := if op.JoinSubscriber? then op.subArgs.pid else op.pubArgs.pid;
    var domain := DomainOf(s.procs, pid);
    var c := Cell(op.ns, op.name, domain);
    var s1 := AddTopic(s, c, op.topicOk).0;
    AddTopicIds(s, c, op.topicOk, T);
    if T in s.topics {
      StoreFacts(s, T);
      AddTopicSpares(s, c, op.topicOk, T);
      SameStoreEvolves(s.topics[T], s1.topics[T]);
      if op.JoinSubscriber? {
        JoinEvolves(s1.topics[T], domain, op.subArgs, PubArgs(0, 0, false), op.fault);
      } else {
        JoinEvolves(s1.topics[T], domain, SubArgs(0, 0, false, false, false, None), op.pubArgs, op.fault);
      }
      if u.topics[T] != s1.topics[T] {
        EvolvesOnward(s.topics[T], s1.topics[T], u.topics[T]);
      }
    }
  }

  lemma AddTopicIds(s: State, c: Cell, topicOk: bool, T: int)
    ensures var (u, found) := AddTopic(s, c, topicOk);
      && s.nextTopic <= u.nextTopic
      && (T < s.nextTopic && T !in s.topics ==> T !in u.topics)
      && (found.Some? && found.value in u.topics && T == found.value && T < s.nextTopic ==> T in s.topics)
  {
    hide Find, Partner;
  }

  lemma ExitStoreStep(s: State, pid: int, T: int)
    ensures StoreStep(s, DoExit(s, pid), T)
  {
    hide Sweep, Exited, InUse, CellsOf, Evolves;
    var u := DoExit(s, pid);
    if T in s.topics {
      SameStoreEvolves(s.topics[T], s.topics[T]);
      if pid in s.procs && T in u.topics {
        var procs := Exited(s.procs, pid);
        var t := s.topics[T];
        var gone := SubscribersOf(t, pid);
        SweepEvolves(t, gone, if gone == {} then PublishersOf(t, pid) else DeadPublishers(procs, t));
        SameStoreEvolves(Exit(procs, t, pid), u.topics[T]);
        EvolvesOnward(t, Exit(procs, t, pid), u.topics[T]);
      }
    }
  }

  lemma LeaveStoreStep(s: State, R: int, c: Cell, gone: set<int>, doomed: set<int>, T: int)
    requires R in s.topics && c in s.wrappers && s.wrappers[c] == R
    ensures StoreStep(s, ReleaseWrapper(Put(s, R, Sweep(s.topics[R], gone, doomed)), c), T)
  {
    hide Sweep, Evolves, ReleaseWrapper;
    SweepEvolves(s.topics[R], gone, doomed);
    PutStoreStep(s, R, Sweep(s.topics[R], gone, doomed), T);
    ReleaseWrapperStep(s, Put(s, R, Sweep(s.topics[R], gone, doomed)), c, T);
  }

  lemma StepEvolves(s: State, op: Op, T: int)
    requires Inv(s)
    ensures StoreStep(s, Step(s, op).0, T)
  {
    hide Inv, Evolves, AddExact, AddPrefix, HandedOut, Batch, TakeCandidate, Window, MapPublishers, Published, Inserted,
         Takeable, Reclaimable, WalkRunsOff, Release, Sweep, ReleaseWrapper, DoExit, ProcessesOf, ProcessesIn, AliveIn,
         HasDaemon, HasManager, HasAgent, DoJoinSubscriber, DoJoinPublisher, StoreStep,
         DoAddProcess, DoCheckBridgeShutdown, DoAddAgent, DoAgentShouldExit, DoCommitExit;
    if Step(s, op).0.topics == s.topics && Step(s, op).0.nextTopic == s.nextTopic {
      QuietStoreStep(s, Step(s, op).0, T);
    }
    match op {
      case JoinSubscriber(_, _, _, _, _) => JoinStoreStep(s, op, T);
      case JoinPublisher(_, _, _, _, _) => JoinStoreStep(s, op, T);
      case PublishMsg(pid, ns, name, p, addr, ok) =>
        var found := StoreAt(s, pid, ns, name);
        if found.Some? && p in s.topics[found.value].pubs {
          PublishedEvolves(s.topics[found.value], p, addr);
          PutStoreStep(s, found.value, Published(s.topics[found.value], p, addr), T);
        }
      case ReceiveMsg(pid, ns, name, r, b, shm) =>
        var found := StoreAt(s, pid, ns, name);
        if found.Some? && r in s.topics[found.value].subs {
          var t := s.topics[found.value];
          StoreFacts(s, found.value);
          BatchTakeable(WorldOf(s), t, r);
          HandedOutKeepsSub(t, r, Batch(WorldOf(s), t, t.subs[r]));
          DeliveryStoreStep(s, found.value, r, Batch(WorldOf(s), t, t.subs[r]), DomainOf(s.procs, pid), b, shm, T);
        }
      case TakeMsg(pid, ns, name, r, same, b, shm) =>
        var found := StoreAt(s, pid, ns, name);
        if found.Some? && r in s.topics[found.value].subs {
          var t := s.topics[found.value];
          StoreFacts(s, found.value);
          CandidateTakeable(WorldOf(s), t, r, same);
          HandedOutKeepsSub(t, r, TakeCandidate(WorldOf(s), t, t.subs[r], same));
          DeliveryStoreStep(s, found.value, r, TakeCandidate(WorldOf(s), t, t.subs[r], same), DomainOf(s.procs, pid),
              b, shm, T);
        }
      case ReleaseRef(pid, ns, name, r, entry) =>
        var found := StoreAt(s, pid, ns, name);
        if found.Some? {
          ReleaseEvolves(s.topics[found.value], r, entry);
          PutStoreStep(s, found.value, Release(s.topics[found.value], r, entry).0, T);
        }
      case LeaveSubscriber(pid, ns, name, r) =>
        var found := StoreAt(s, pid, ns, name);
        if found.Some? {
          LeaveStoreStep(s, found.value, Cell(ns, name, DomainOf(s.procs, pid)), {r},
              DeadPublishers(s.procs, s.topics[found.value]), T);
        }
      case LeavePublisher(pid, ns, name, r) =>
        var found := StoreAt(s, pid, ns, name);
        if found.Some? {
          LeaveStoreStep(s, found.value, Cell(ns, name, DomainOf(s.procs, pid)), {}, {r}, T);
        }
      case ProcessExit(pid) => ExitStoreStep(s, pid, T);
      case _ =>
        AdministrativeStep(s, op);
        QuietStoreStep(s, Step(s, op).0, T);
    }
  }

  lemma BatchTakeable(w: World, t: Topic, s: int)
    requires Consistent(t) && s in t.subs
    ensures Takeable(t, s, Batch(w, t, t.subs[s]))
    ensures forall e :: e in Batch(w, t, t.subs[s]) ==> t.subs[s].latest < e.id
  {
    hide Consistent, Newest;
    var window := Window(w, t, t.subs[s]);
    NewestTakeable(w, t, s, t.subs[s].latest + 1, Min(MAX_RECEIVE_NUM, |window|));
    assert forall e :: e in Batch(w, t, t.subs[s]) ==> e in window;
  }

  lemma CandidateTakeable(w: World, t: Topic, s: int, same: bool)
    requires Consistent(t) && s in t.subs
    ensures Takeable(t, s, TakeCandidate(w, t, t.subs[s], same))
    ensures !same ==> forall e :: e in TakeCandidate(w, t, t.subs[s], same) ==> t.subs[s].latest < e.id
  {
    hide Consistent, Newest;
    var newest := Newest(w, t, t.subs[s], TakeFloor(t.subs[s], same));
    NewestTakeable(w, t, s, TakeFloor(t.subs[s], same), Min(1, |newest|));
    assert forall e :: e in TakeCandidate(w, t, t.subs[s], same) ==> e in newest;
  }

  /** Between two states of a run that both have a store, the store evolved. */
  lemma {:induction false} RunEvolves(states: seq<State>, ops: seq<Op>, i: nat, j: nat, T: int)
    requires Run(states, ops) && i <= j < |states| && T in states[i].topics
    ensures T in states[j].topics ==> Evolves(states[i].topics[T], states[j].topics[T])
    ensures T < states[j].nextTopic
  {
    hide Inv, Init, Allowed, Step, Evolves;
    if i == j {
      RunKeeps(states, ops, i);
      StoreFacts(states[i], T);
      SameStoreEvolves(states[i].topics[T], states[i].topics[T]);
    } else {
      RunEvolves(states, ops, i, j - 1, T);
      RunKeeps(states, ops, j - 1);
      StepEvolves(states[j - 1], ops[j - 1], T);
      if T in states[j].topics && T in states[j - 1].topics {
        EvolvesOnward(states[i].topics[T], states[j - 1].topics[T], states[j].topics[T]);
      }
    }
  }

  // ---------- Every address is handed back at most once ----------

  /** The step is a publish that reaches store `T`. */
  predicate PublishesTo(s: State, op: Op, T: int) {
    op.PublishMsg? && StoreAt(s, op.pid, op.ns, op.name) == Some(T)
  }

  ghost function ReleasedBy(s: State, op: Op): seq<Entry> {
    var r := Step(s, op).1;
    if r.PublishReply? then r.released else []
  }

  /** What one publish hands back: the publisher's own unreferenced messages, gone from the tree for good. */
  lemma ReleasedFacts(s: State, op: Op, T: int)
    requires Inv(s) && PublishesTo(s, op, T)
    ensures var u, released := Step(s, op).0, ReleasedBy(s, op);
      && |released| <= MAX_RELEASE_NUM
      && (forall e :: e in released ==>
           e.publisher == op.id && e.refs == {} && T in u.topics && e.id < u.topics[T].nextEntry)
      && (forall e, d :: e in released && d in u.topics[T].entries ==> d.id != e.id)
      && (forall e :: e in released ==>
            e in s.topics[T].entries || e == Entry(s.topics[T].nextEntry, op.id, op.addr, {}))
  {
    hide Inv, Filter, Reclaimable, WalkRunsOff;
    var t := s.topics[T];
    StoreFacts(s, T);
    if ReleasedBy(s, op) != [] {
      var t1 := Inserted(t, op.id, op.addr);
      InsertedKeeps(t, op.id, op.addr);
      StoreAscending(t1);
      ReclaimableFacts(t1, op.id);
      VictimsGone(t1, Reclaimable(t1, op.id));
      EntryIds(t1);
    }
  }

  lemma EntryIds(t: Topic)
    requires Consistent(t)
    ensures forall e :: e in t.entries ==> e.id < t.nextEntry
  {
  }

  lemma VictimsGone(t: Topic, victims: seq<Entry>)
    requires Ascending(t.entries) && forall e :: e in victims ==> e in t.entries
    ensures forall e, d :: e in victims && d in Filter(t.entries, NotAmong(victims)) ==> d.id != e.id
  {
    hide Filter;
    FilterMembers(t.entries, NotAmong(victims));
    forall e, d | e in victims && d in Filter(t.entries, NotAmong(victims)) ensures d.id != e.id {
      if d.id == e.id {
        SameIdSameEntry(t.entries, d, e);
      }
    }
  }

  /** No message of a store is ever handed back by two publishes of a run. */
  lemma HandedBackOnce(states: seq<State>, ops: seq<Op>, i: nat, j: nat, T: int)
    requires Run(states, ops) && i < j < |ops|
    requires PublishesTo(states[i], ops[i], T) && PublishesTo(states[j], ops[j], T)
    ensures forall d, e :: d in ReleasedBy(states[i], ops[i]) && e in ReleasedBy(states[j], ops[j]) ==> d.id != e.id
  {
    hide Inv, Init, Allowed, Step, ReleasedBy;
    RunKeeps(states, ops, i);
    RunKeeps(states, ops, j);
    ReleasedFacts(states[i], ops[i], T);
    ReleasedFacts(states[j], ops[j], T);
    if T in states[i + 1].topics {
      RunEvolves(states, ops, i + 1, j, T);
    }
  }

  // ---------- Delivery order ----------

  /** The step is a receive or a take by subscriber `q` of store `T`. */
  predicate DeliversTo(s: State, op: Op, T: int, q: int) {
    && (op.ReceiveMsg? || op.TakeMsg?)
    && StoreAt(s, op.pid, op.ns, op.name) == Some(T) && op.id == q && q in s.topics[T].subs
  }

  /** The step may return once more the message the subscriber received last. */
  predicate AllowsSame(op: Op) {
    op.TakeMsg? && op.allowSame
  }

  ghost function HandedBy(s: State, op: Op): seq<Entry> {
    var r := Step(s, op).1;
    if r.DeliveryReply? then r.handed else []
  }

  lemma HandedFacts(s: State, op: Op, T: int, q: int)
    requires Inv(s) && DeliversTo(s, op, T, q)
    ensures var u, handed := Step(s, op).0, HandedBy(s, op);
      && Ascending(handed)
      && T in u.topics && q in u.topics[T].subs && q < s.topics[T].nextId
      && (forall e :: e in handed ==>
           e in s.topics[T].entries && s.topics[T].subs[q].latest <= e.id <= u.topics[T].subs[q].latest)
      && (forall e :: e in handed && !AllowsSame(op) ==> s.topics[T].subs[q].latest < e.id)
  {
    hide Inv, Batch, TakeCandidate, Window, HandedOut, MapPublishers, Consistent, NoStaleDead, EndpointsOk, Homed,
         DoAddProcess, DoCheckBridgeShutdown, DoAddAgent, DoAgentShouldExit, DoCommitExit, AddExact, AddPrefix,
         DoJoinSubscriber, DoJoinPublisher, DoPublish, DoRelease, DoLeaveSubscriber, DoLeavePublisher, DoExit;
    var t := s.topics[T];
    StoreFacts(s, T);
    SubscriberIds(t);
    BatchTakeable(WorldOf(s), t, q);
    CandidateTakeable(WorldOf(s), t, q, AllowsSame(op));
    var handed := if op.ReceiveMsg? then Batch(WorldOf(s), t, t.subs[q])
      else TakeCandidate(WorldOf(s), t, t.subs[q], AllowsSame(op));
    LastIsLargest(handed);
    HandedOutKeepsSub(t, q, handed);
    DeliveryProgress(s, T, q, handed, DomainOf(s.procs, op.pid), op.buffers, op.shm);
  }

  lemma DeliveryProgress(s: State, T: int, q: int, batch: seq<Entry>, domain: nat, buffers: nat, shm: ShmFault)
    requires T in s.topics && q in s.topics[T].subs && q in HandedOut(s.topics[T], q, batch).subs
    ensures var u := MapPublishers(s, T, HandedOut(s.topics[T], q, batch), q, domain, buffers, shm).0;
      && T in u.topics && q in u.topics[T].subs
      && u.topics[T].subs[q].latest == if batch == [] then s.topics[T].subs[q].latest else batch[|batch| - 1].id
  {
    hide PoolsToMap, MappedInto, Unmappable, Marked;
  }

  lemma SubscriberIds(t: Topic)
    requires Consistent(t)
    ensures forall q :: q in t.subs ==> q < t.nextId
  {
  }

  lemma LastIsLargest(batch: seq<Entry>)
    requires Ascending(batch)
    ensures forall e :: e in batch ==> e.id <= batch[|batch| - 1].id
  {
  }

  /**
    The ids one subscriber receives strictly increase within a call and never decrease from call to
    call, for ever. They strictly increase, unless the later call allows the same message again.
   */
  lemma ReceivedIdsIncrease(states: seq<State>, ops: seq<Op>, i: nat, j: nat, T: int, q: int)
    requires Run(states, ops) && i < j < |ops|
    requires DeliversTo(states[i], ops[i], T, q) && DeliversTo(states[j], ops[j], T, q)
    ensures var before, after := HandedBy(states[i], ops[i]), HandedBy(states[j], ops[j]);
      && Ascending(before) && Ascending(after)
      && (forall d, e :: d in before && e in after ==> d.id <= e.id)
      && (!AllowsSame(ops[j]) ==> Ascending(before + after))
  {
    hide Inv, Init, Allowed, Step, HandedBy;
    RunKeeps(states, ops, i);
    RunKeeps(states, ops, j);
    HandedFacts(states[i], ops[i], T, q);
    HandedFacts(states[j], ops[j], T, q);
    RunKeeps(states, ops, i + 1);
    RunEvolves(states, ops, i + 1, j, T);
    StoreFacts(states[i + 1], T);
    SubscriberIds(states[i + 1].topics[T]);
    if !AllowsSame(ops[j]) {
      AscendingConcat(HandedBy(states[i], ops[i]), HandedBy(states[j], ops[j]));
    }
  }

  lemma AscendingConcat(a: seq<Entry>, b: seq<Entry>)
    requires Ascending(a) && Ascending(b)
    requires forall d, e :: d in a && e in b ==> d.id < e.id
    ensures Ascending(a + b)
  {
  }

  // ---------- Volatile subscribers ----------

  /** The step lets a volatile subscriber join store `T` under id `q`. */
  ghost predicate JoinsVolatile(s: State, op: Op, u: State, T: int, q: int) {
    && op.JoinSubscriber? && !op.subArgs.transientLocal && Step(s, op).0 == u
    && Step(s, op).1 == Plain(Ok(q))
    && Cell(op.ns, op.name, DomainOf(s.procs, op.subArgs.pid)) in u.wrappers
    && u.wrappers[Cell(op.ns, op.name, DomainOf(s.procs, op.subArgs.pid))] == T
  }

  /** The progress a volatile subscriber starts from is an id that no message has, now or later. */
  lemma VolatileStart(s: State, op: Op, T: int, q: int)
    requires Inv(s) && JoinsVolatile(s, op, Step(s, op).0, T, q)
    ensures var u := Step(s, op).0;
      && T in u.topics && q in u.topics[T].subs && q < u.topics[T].nextId
      && u.topics[T].subs[q].latest == u.topics[T].nextEntry - 1
      && forall e :: e in u.topics[T].entries ==> e.id < u.topics[T].nextEntry - 1
  {
    hide Inv, AddTopic;
    var domain := DomainOf(s.procs, op.subArgs.pid);
    var (s1, found) := AddTopic(s, Cell(op.ns, op.name, domain), op.topicOk);
    AddTopicKeeps(s, Cell(op.ns, op.name, domain), op.topicOk);
    assert found == Some(T);
    assert Step(s, op).0 == Put(s1, T, AddSubscriber(s1.topics[T], domain, op.subArgs, op.fault).0);
    assert EntriesOk(s1.topics[T]) by { StoreFacts(s1, T); }
  }

  /** A volatile subscriber is never handed a message published before it joined, by whatever call. */
  lemma VolatileGetsNothingOld(states: seq<State>, ops: seq<Op>, i: nat, j: nat, T: int, q: int)
    requires Run(states, ops) && i < j < |ops|
    requires JoinsVolatile(states[i], ops[i], states[i + 1], T, q) && DeliversTo(states[j], ops[j], T, q)
    ensures T in states[i + 1].topics
    ensures forall e :: e in HandedBy(states[j], ops[j]) ==> e.id >= states[i + 1].topics[T].nextEntry
  {
    hide Inv, Init, Allowed, Step, HandedBy;
    RunKeeps(states, ops, i);
    RunKeeps(states, ops, j);
    VolatileStart(states[i], ops[i], T, q);
    HandedFacts(states[j], ops[j], T, q);
    RunEvolves(states, ops, i + 1, j, T);
  }
}
