// What reclamation means for memory: an address that is handed back is nobody's any more.

module Addresses {
  import opened Base
  import opened Seqs
  import opened TopicModel
  import opened StoreInvariant
  import opened DomainRules
  import opened Mempools
  import opened KernelModel
  import opened KernelInvariant
  import opened ProcessInvariant
  import opened Lifetime
  import opened DeliveryOrder

  /** No two messages of the stores in `among` share an address. */
  ghost predicate AddressesDistinct(s: State, among: iset<int>) {
    forall T, U, d, e | T in s.topics && U in s.topics && T in among && U in among &&
      d in s.topics[T].entries && e in s.topics[U].entries && d.addr == e.addr ::
        T == U && d.id == e.id
  }

  /** No message of the stores in `among` occupies the address. */
  ghost predicate Unoccupied(s: State, among: iset<int>, addr: int) {
    forall T, e :: T in s.topics && T in among && e in s.topics[T].entries ==> e.addr != addr
  }

  /** Whatever is published in a store in `among` goes to an address no message there occupies. */
  ghost predicate PublishesFresh(s: State, op: Op, among: iset<int>) {
    forall T :: T in among && PublishesTo(s, op, T) ==> Unoccupied(s, among, op.addr)
  }

  /** A run in which publishers to the stores in `among` only publish at unoccupied addresses. */
  ghost predicate FreshRun(states: seq<State>, ops: seq<Op>, among: iset<int>) {
    && Run(states, ops)
    && forall i :: 0 <= i < |ops| ==> PublishesFresh(states[i], ops[i], among)
  }

  // ---------- Where messages come from ----------

  /** The entry ids of a store advance only by a publish or by a volatile subscriber, who adds no message. */
  ghost predicate NothingArrives(t: Topic, u: Topic) {
    u.nextEntry == t.nextEntry || u.entries == t.entries
  }

  lemma SweepArrivals(t: Topic, gone: set<int>, doomed: set<int>)
    ensures NothingArrives(t, Sweep(t, gone, doomed))
  {
    hide Swept, Count;
  }

  lemma DeliveryArrivals(s: State, T: int, id: int, batch: seq<Entry>, domain: nat, buffers: nat, shm: ShmFault)
    requires T in s.topics && id in s.topics[T].subs && id in HandedOut(s.topics[T], id, batch).subs
    ensures var u := MapPublishers(s, T, HandedOut(s.topics[T], id, batch), id, domain, buffers, shm).0;
      && u.topics.Keys == s.topics.Keys
      && forall U :: U in s.topics ==> NothingArrives(s.topics[U], u.topics[U])
  {
  }

  lemma ReleaseWrapperArrivals(s: State, c: Cell)
    requires c in s.wrappers && s.wrappers[c] in s.topics
    ensures ReleaseWrapper(s, c).topics.Keys <= s.topics.Keys
    ensures forall U :: U in ReleaseWrapper(s, c).topics ==>
      ReleaseWrapper(s, c).topics[U].entries == s.topics[U].entries
    ensures forall U :: U in ReleaseWrapper(s, c).topics ==>
      ReleaseWrapper(s, c).topics[U].nextEntry == s.topics[U].nextEntry
  {
    hide HasDomainEndpoint;
  }

  lemma LeaveArrivals(s: State, R: int, gone: set<int>, doomed: set<int>, c: Cell)
    requires R in s.topics && c in s.wrappers && s.wrappers[c] == R
    ensures var u := ReleaseWrapper(Put(s, R, Sweep(s.topics[R], gone, doomed)), c);
      && u.topics.Keys <= s.topics.Keys
      && forall U :: U in u.topics ==> NothingArrives(s.topics[U], u.topics[U])
  {
    hide Sweep, ReleaseWrapper;
    SweepArrivals(s.topics[R], gone, doomed);
    ReleaseWrapperArrivals(Put(s, R, Sweep(s.topics[R], gone, doomed)), c);
  }

  lemma ExitArrivals(s: State, pid: int)
    ensures var u := DoExit(s, pid);
      && u.topics.Keys <= s.topics.Keys
      && forall U :: U in u.topics ==> NothingArrives(s.topics[U], u.topics[U])
  {
    hide Sweep, Free, Exited, InUse, CellsOf;
    if pid in s.procs {
      forall U | U in s.topics ensures NothingArrives(s.topics[U], Exit(Exited(s.procs, pid), s.topics[U], pid)) {
        var t, procs := s.topics[U], Exited(s.procs, pid);
        var gone := SubscribersOf(t, pid);
        SweepArrivals(t, gone, if gone == {} then PublishersOf(t, pid) else DeadPublishers(procs, t));
      }
    }
  }

  lemma AddTopicArrivals(s: State, c: Cell, topicOk: bool)
    requires s.nextTopic !in s.topics
    ensures var u := AddTopic(s, c, topicOk).0;
      forall U :: U in u.topics ==>
        if U in s.topics then u.topics[U].entries == s.topics[U].entries &&
            u.topics[U].nextEntry == s.topics[U].nextEntry
        else u.topics[U].entries == []
  {
    hide Find, Partner;
  }

  lemma JoinArrivals(s: State, op: Op)
    requires Inv(s) && (op.JoinSubscriber? || op.JoinPublisher?)
    ensures forall U :: U in Step(s, op).0.topics ==> BringsNothing(s, Step(s, op).0, U)
  {
    hide Inv, DoJoinSubscriber, DoJoinPublisher, BringsNothing;
    match op {
      case JoinSubscriber(ns, name, a, topicOk, fault) => SubscriberArrivals(s, ns, name, a, topicOk, fault);
      case JoinPublisher(ns, name, a, topicOk, fault) => PublisherArrivals(s, ns, name, a, topicOk, fault);
    }
  }

  ghost predicate BringsNothing(s: State, u: State, T: int)
    requires T in u.topics
  {
    if T in s.topics then NothingArrives(s.topics[T], u.topics[T]) else u.topics[T].entries == []
  }

  lemma SubscriberArrivals(s: State, ns: int, name: string, a: SubArgs, topicOk: bool, fault: Fault)
    requires Inv(s)
    ensures var u := DoJoinSubscriber(s, ns, name, a, topicOk, fault).0;
      forall U :: U in u.topics ==> BringsNothing(s, u, U)
  {
    hide Inv, AddTopic;
    FreshStoreName(s);
    AddTopicArrivals(s, Cell(ns, name, DomainOf(s.procs, a.pid)), topicOk);
  }

  lemma PublisherArrivals(s: State, ns: int, name: string, a: PubArgs, topicOk: bool, fault: Fault)
    requires Inv(s)
    ensures var u := DoJoinPublisher(s, ns, name, a, topicOk, fault).0;
      forall U :: U in u.topics ==> BringsNothing(s, u, U)
  {
    hide Inv, AddTopic;
    FreshStoreName(s);
    AddTopicArrivals(s, Cell(ns, name, DomainOf(s.procs, a.pid)), topicOk);
  }

  lemma FreshStoreName(s: State)
    requires Inv(s)
    ensures s.nextTopic !in s.topics
  {
  }

  /** Only a publish brings messages into a store. */
  lemma OtherStepsBringNothing(s: State, op: Op, T: int)
    requires Inv(s) && !op.PublishMsg? && T in Step(s, op).0.topics
    ensures BringsNothing(s, Step(s, op).0, T)
  {
    hide Inv, NothingArrives, AddExact, AddPrefix, HandedOut, Batch, TakeCandidate, Window, MapPublishers, Release,
         Sweep, ReleaseWrapper, DoExit, ProcessesOf, ProcessesIn, AliveIn, HasDaemon, HasManager, HasAgent,
         DoJoinSubscriber, DoJoinPublisher, FirstFree, Assign, Free,
         DoAddProcess, DoCheckBridgeShutdown, DoAddAgent, DoAgentShouldExit, DoCommitExit;
    if T in s.topics {
      SameArrivals(s.topics[T]);
    }
    match op {
      case JoinSubscriber(_, _, _, _, _) => JoinArrivals(s, op);
      case JoinPublisher(_, _, _, _, _) => JoinArrivals(s, op);
      case ReceiveMsg(pid, ns, name, r, b, shm) =>
        var found := StoreAt(s, pid, ns, name);
        if found.Some? && r in s.topics[found.value].subs {
          var t := s.topics[found.value];
          HandedOutKeepsSub(t, r, Batch(WorldOf(s), t, t.subs[r]));
          DeliveryArrivals(s, found.value, r, Batch(WorldOf(s), t, t.subs[r]), DomainOf(s.procs, pid), b, shm);
        }
      case TakeMsg(pid, ns, name, r, same, b, shm) =>
        var found := StoreAt(s, pid, ns, name);
        if found.Some? && r in s.topics[found.value].subs {
          var t := s.topics[found.value];
          var batch := TakeCandidate(WorldOf(s), t, t.subs[r], same);
          HandedOutKeepsSub(t, r, batch);
          DeliveryArrivals(s, found.value, r, batch, DomainOf(s.procs, pid), b, shm);
        }
      case ReleaseRef(pid, ns, name, r, entry) =>
        var found := StoreAt(s, pid, ns, name);
        if found.Some? {
          ReleaseArrivals(s.topics[found.value], r, entry);
          if T in s.topics { SameArrivals(s.topics[T]); }
        }
      case LeaveSubscriber(pid, ns, name, r) =>
        var found := StoreAt(s, pid, ns, name);
        if found.Some? {
          var doomed := DeadPublishers(s.procs, s.topics[found.value]);
          LeaveArrivals(s, found.value, {r}, doomed, Cell(ns, name, DomainOf(s.procs, pid)));
        }
      case LeavePublisher(pid, ns, name, r) =>
        var found := StoreAt(s, pid, ns, name);
        if found.Some? {
          LeaveArrivals(s, found.value, {}, {r}, Cell(ns, name, DomainOf(s.procs, pid)));
        }
      case ProcessExit(pid) => ExitArrivals(s, pid);
      case _ =>
        AdministrativeStep(s, op);
    }
  }

  lemma SameArrivals(t: Topic)
    ensures NothingArrives(t, t)
  {
  }

  lemma ReleaseArrivals(t: Topic, r: int, entry: int)
    ensures NothingArrives(t, Release(t, r, entry).0)
  {
  }

  /** Every message after a step was there before, in the same store and at the same address, or was just published. */
  lemma Origin(s: State, op: Op, T: int, e: Entry)
    requires Inv(s) && Allowed(s, op) && T in Step(s, op).0.topics && e in Step(s, op).0.topics[T].entries
    ensures
      || (T in s.topics && exists d :: d in s.topics[T].entries && SameMessage(d, e))
      || (PublishesTo(s, op, T) && e == Entry(s.topics[T].nextEntry, op.id, op.addr, {}))
  {
    hide Inv, Allowed, Step, Evolves, Consistent;
    var u := Step(s, op).0;
    StepEvolves(s, op, T);
    StepKeeps(s, op);
    StoreFacts(u, T);
    if op.PublishMsg? {
      PublishOrigin(s, op, T, e);
    } else {
      OtherStepsBringNothing(s, op, T);
      if T in s.topics {
        StoreFacts(s, T);
        OldMessage(s.topics[T], u.topics[T], e);
      }
    }
  }

  lemma OldMessage(t: Topic, u: Topic, e: Entry)
    requires Consistent(u) && Evolves(t, u) && NothingArrives(t, u) && e in u.entries
    ensures exists d :: d in t.entries && SameMessage(d, e)
  {
    hide Count;
    if u.entries == t.entries {
      assert SameMessage(e, e);
    }
  }

  lemma PublishOrigin(s: State, op: Op, T: int, e: Entry)
    requires op.PublishMsg? && T in Step(s, op).0.topics && e in Step(s, op).0.topics[T].entries
    ensures
      || (T in s.topics && e in s.topics[T].entries)
      || (PublishesTo(s, op, T) && e == Entry(s.topics[T].nextEntry, op.id, op.addr, {}))
    ensures SameMessage(e, e)
  {
    hide Filter, Reclaimable, WalkRunsOff;
    var found := StoreAt(s, op.pid, op.ns, op.name);
    if found.Some? && op.id in s.topics[found.value].pubs {
      var t1 := Inserted(s.topics[found.value], op.id, op.addr);
      FilterMembers(t1.entries, NotAmong(Reclaimable(t1, op.id)));
    }
  }

  // ---------- Over runs ----------

  lemma StepKeepsDistinct(s: State, op: Op, among: iset<int>)
    requires Inv(s) && Allowed(s, op) && AddressesDistinct(s, among) && PublishesFresh(s, op, among)
    ensures AddressesDistinct(Step(s, op).0, among)
  {
    hide Inv, Allowed, Step, PublishesTo;
    var u := Step(s, op).0;
    forall T, U, d, e | T in u.topics && U in u.topics && T in among && U in among &&
      d in u.topics[T].entries && e in u.topics[U].entries && d.addr == e.addr
      ensures T == U && d.id == e.id
    {
      Origin(s, op, T, d);
      Origin(s, op, U, e);
      if PublishesTo(s, op, T) && PublishesTo(s, op, U) {
        OnePublishTarget(s, op, T, U);
      }
    }
  }

  lemma OnePublishTarget(s: State, op: Op, T: int, U: int)
    requires PublishesTo(s, op, T) && PublishesTo(s, op, U)
    ensures T == U
  {
  }

  lemma {:induction false} RunKeepsDistinct(states: seq<State>, ops: seq<Op>, among: iset<int>, i: nat)
    requires FreshRun(states, ops, among) && i < |states|
    ensures AddressesDistinct(states[i], among)
  {
    hide Inv, Allowed, Step, PublishesFresh, AddressesDistinct;
    if i == 0 {
      NoAddresses(states[0], among);
    } else {
      RunKeepsDistinct(states, ops, among, i - 1);
      RunKeeps(states, ops, i - 1);
      StepKeepsDistinct(states[i - 1], ops[i - 1], among);
    }
  }

  lemma NoAddresses(s: State, among: iset<int>)
    requires Init(s)
    ensures AddressesDistinct(s, among)
  {
  }

  /**
    Where publishers only publish at unoccupied addresses, an address that a publish hands back is the
    address of no message left, held or not. This holds of one tree, of the stores one process
    publishes in, and of the whole module.
   */
  lemma HandedBackAddressIsFree(states: seq<State>, ops: seq<Op>, among: iset<int>, i: nat, T: int, e: Entry)
    requires FreshRun(states, ops, among) && i < |ops| && T in among && PublishesTo(states[i], ops[i], T)
    requires e in ReleasedBy(states[i], ops[i])
    ensures Unoccupied(states[i + 1], among, e.addr)
  {
    hide Inv, Init, Allowed, Step, ReleasedBy;
    var s, op, u := states[i], ops[i], states[i + 1];
    RunKeeps(states, ops, i);
    RunKeepsDistinct(states, ops, among, i);
    ReleasedFacts(s, op, T);
    assert u == Step(s, op).0;
    forall U, d | U in u.topics && U in among && d in u.topics[U].entries ensures d.addr != e.addr {
      Origin(s, op, U, d);
    }
  }
}
