// When a dead publisher owns a message that nobody references, step by step.

module StrandedMessages {
  import opened Base
  import opened Seqs
  import opened TopicModel
  import opened StoreInvariant
  import opened DomainRules
  import opened Mempools
  import opened KernelModel
  import opened KernelInvariant
  import opened ProcessInvariant
  import opened Lifetime

  // ---------- One store ----------

  /** A dead publisher still owns a message that nobody references. */
  ghost predicate Stranded(procs: map<int, Process>, t: Topic) {
    exists e :: e in t.entries && e.publisher in DeadPublishers(procs, t) && e.refs == {}
  }

  /** Nobody references `e`, or it is the message `id` and only `s` does. */
  predicate HeldByNoOther(e: Entry, s: int, id: int) {
    e.refs == {} || (e.id == id && e.refs == {s})
  }

  /** After a release: a message of a dead publisher had no holder before, or is the released one and had no other. */
  lemma StrandedAfterRelease(procs: map<int, Process>, t: Topic, s: int, id: int)
    requires Consistent(t) && Holds(t, s, id)
    ensures Release(t, s, id).1.Ok?
    ensures Stranded(procs, Release(t, s, id).0) <==>
      exists e :: e in t.entries && e.publisher in DeadPublishers(procs, t) && HeldByNoOther(e, s, id)
  {
    hide Consistent, Holds, Unmarked;
    HolderMayRelease(t, s, id);
    var u := Release(t, s, id).0;
    assert DeadPublishers(procs, u) == DeadPublishers(procs, t);
    ReleaseEmpties(t, s, id);
    if e :| e in u.entries && e.publisher in DeadPublishers(procs, u) && e.refs == {} {
      var j :| 0 <= j < |u.entries| && u.entries[j] == e;
      assert t.entries[j] in t.entries;
    }
    if e :| e in t.entries && e.publisher in DeadPublishers(procs, t) && HeldByNoOther(e, s, id) {
      var j :| 0 <= j < |t.entries| && t.entries[j] == e;
      assert u.entries[j] in u.entries;
    }
  }

  lemma HolderMayRelease(t: Topic, s: int, id: int)
    requires Consistent(t) && Holds(t, s, id)
    ensures Release(t, s, id).1.Ok?
  {
    hide Ascending, CountsOk;
    var i :| 0 <= i < |t.entries| && t.entries[i].id == id && s in t.entries[i].refs;
    assert t.entries[i] in t.entries && HoldersOk(t.subs, t.entries[i]);
  }

  lemma ReleaseEmpties(t: Topic, s: int, id: int)
    requires Consistent(t) && Holds(t, s, id) && Release(t, s, id).1.Ok?
    ensures var es := Release(t, s, id).0.entries;
      |es| == |t.entries| && forall j :: 0 <= j < |es| ==>
        es[j].publisher == t.entries[j].publisher && (es[j].refs == {} <==> HeldByNoOther(t.entries[j], s, id))
  {
    hide CountsOk, HoldersOk;
    var i :| 0 <= i < |t.entries| && t.entries[i].id == id && s in t.entries[i].refs;
    forall j | 0 <= j < |t.entries|
      ensures Release(t, s, id).0.entries[j].refs == {} <==> HeldByNoOther(t.entries[j], s, id)
    {
      EmptiedBy(t.entries[j].refs, s);
      SameIdSameIndex(t.entries, i, j);
    }
  }

  lemma EmptiedBy(refs: set<int>, s: int)
    ensures refs - {s} == {} <==> refs == {} || refs == {s}
  {
    assert refs - {s} == {} ==> refs <= {s};
  }

  lemma SameIdSameIndex(es: seq<Entry>, i: nat, j: nat)
    requires Ascending(es) && i < |es| && j < |es|
    ensures es[i].id == es[j].id <==> i == j
  {
  }

  /** A release strands a message exactly when the message's publisher is dead and the releaser was its only holder. */
  lemma ReleaseStrandsExactly(procs: map<int, Process>, t: Topic, s: int, id: int)
    requires Consistent(t) && Holds(t, s, id) && !Stranded(procs, t)
    ensures Stranded(procs, Release(t, s, id).0) <==>
      exists e :: e in t.entries && e.id == id && e.publisher in DeadPublishers(procs, t) && e.refs == {s}
  {
    StrandedAfterRelease(procs, t, s, id);
  }

  /** The sweep comes later: whenever a subscriber leaves, nothing stranded stays behind. */
  lemma DepartureSweepsStranded(procs: map<int, Process>, t: Topic, q: int)
    requires Consistent(t)
    ensures !Stranded(procs, RemoveSubscriber(procs, t, q))
  {
    hide Consistent, Swept, Count;
    SweepLeavesReferenced(t, {q}, DeadPublishers(procs, t));
  }

  /** And so it is when a subscriber's process exits. */
  lemma ExitSweepsStranded(procs: map<int, Process>, t: Topic, pid: int)
    requires Consistent(t) && SubscribersOf(t, pid) != {}
    ensures !Stranded(procs, Exit(procs, t, pid))
  {
    hide Consistent, Swept, Count;
    SweepLeavesReferenced(t, SubscribersOf(t, pid), DeadPublishers(procs, t));
  }

  // ---------- Steps ----------

  ghost predicate NothingStranded(s: State) {
    forall T :: T in s.topics ==> !Stranded(s.procs, s.topics[T])
  }

  /** The step releases a message whose publisher is dead and whose only holder is the releaser. */
  ghost predicate ReleasesLastOfDead(s: State, op: Op) {
    op.ReleaseRef? &&
    var found := StoreAt(s, op.pid, op.ns, op.name);
    found.Some? &&
    exists e :: e in s.topics[found.value].entries && e.id == op.entry && e.refs == {op.id} &&
      e.publisher in DeadPublishers(s.procs, s.topics[found.value])
  }

  /** The tree is the same, and who is dead was so before. */
  lemma SameTree(before: map<int, Process>, t: Topic, after: map<int, Process>, u: Topic)
    requires !Stranded(before, t) && u.entries == t.entries
    requires DeadPublishers(after, u) <= DeadPublishers(before, t)
    ensures !Stranded(after, u)
  {
  }

  lemma PutStrands(s: State, T: int, u: Topic)
    requires NothingStranded(s)
    ensures NothingStranded(Put(s, T, u)) <==> !Stranded(s.procs, u)
  {
    hide Stranded;
    assert Put(s, T, u).topics[T] == u;
  }

  lemma PublishStrandsNothing(procs: map<int, Process>, t: Topic, p: int, addr: int)
    requires p in t.pubs && !Dead(procs, t.pubs[p].pid) && !Stranded(procs, t)
    ensures !Stranded(procs, Published(t, p, addr))
  {
    hide Filter, Reclaimable;
    var u, t1 := Published(t, p, addr), Inserted(t, p, addr);
    FilterMembers(t1.entries, NotAmong(Reclaimable(t1, p)));
    assert DeadPublishers(procs, u) == DeadPublishers(procs, t);
    forall e | e in u.entries && e.publisher in DeadPublishers(procs, u) ensures e in t.entries {
      assert e in t1.entries && e.publisher != p;
    }
  }

  lemma HandingOutStrandsNothing(procs: map<int, Process>, t: Topic, q: int, batch: seq<Entry>)
    requires q in t.subs && !Stranded(procs, t)
    ensures !Stranded(procs, HandedOut(t, q, batch))
  {
    var u := HandedOut(t, q, batch);
    assert DeadPublishers(procs, u) == DeadPublishers(procs, t);
    forall e | e in u.entries && e.refs == {} ensures e in t.entries {
      var i :| 0 <= i < |u.entries| && u.entries[i] == e;
      assert t.entries[i] in t.entries;
    }
  }

  lemma DeliveryStrandsNothing(s: State, T: int, q: int, batch: seq<Entry>, domain: nat, buffers: nat, shm: ShmFault)
    requires NothingStranded(s) && T in s.topics && q in s.topics[T].subs
    requires q in HandedOut(s.topics[T], q, batch).subs
    ensures NothingStranded(MapPublishers(s, T, HandedOut(s.topics[T], q, batch), q, domain, buffers, shm).0)
  {
    hide HandedOut, PoolsToMap, Unmappable, MappedInto, Stranded;
    var u := HandedOut(s.topics[T], q, batch);
    HandingOutStrandsNothing(s.procs, s.topics[T], q, batch);
    SubsIrrelevant(s.procs, u, u.subs[q := u.subs[q].(needMmap := false)]);
  }

  lemma SubsIrrelevant(procs: map<int, Process>, t: Topic, subs: map<int, Subscriber>)
    requires !Stranded(procs, t)
    ensures !Stranded(procs, t.(subs := subs))
  {
    SameTree(procs, t, procs, t.(subs := subs));
  }

  lemma RefcntStrandsNothing(procs: map<int, Process>, t: Topic, n: nat)
    ensures Stranded(procs, t.(refcnt := n)) <==> Stranded(procs, t)
  {
    assert DeadPublishers(procs, t.(refcnt := n)) == DeadPublishers(procs, t);
  }

  lemma AddTopicStrandsNothing(s: State, c: Cell, topicOk: bool)
    requires NothingStranded(s)
    ensures NothingStranded(AddTopic(s, c, topicOk).0)
  {
    hide Find, Partner, Stranded;
    var T := AddTopic(s, c, topicOk).1;
    if T.Some? && T.value in s.topics {
      RefcntStrandsNothing(s.procs, s.topics[T.value], s.topics[T.value].refcnt + 1);
    }
    assert !Stranded(s.procs, EmptyTopic(Find(s.rules, c))) by { EmptyStrandsNothing(s.procs, Find(s.rules, c)); }
  }

  lemma EmptyStrandsNothing(procs: map<int, Process>, rule: Option<int>)
    ensures !Stranded(procs, EmptyTopic(rule))
  {
  }

  lemma JoinedStrandsNothing(procs: map<int, Process>, t: Topic, domain: nat, a: SubArgs, b: PubArgs, fault: Fault)
    requires !Stranded(procs, t) && Consistent(t)
    ensures !Stranded(procs, AddSubscriber(t, domain, a, fault).0)
    ensures !Dead(procs, b.pid) ==> !Stranded(procs, AddPublisher(t, domain, b, fault).0)
  {
    hide Count;
    SameTree(procs, t, procs, AddSubscriber(t, domain, a, fault).0);
    var u := AddPublisher(t, domain, b, fault).0;
    if !Dead(procs, b.pid) {
      SameTree(procs, t, procs, u);
    }
  }

  lemma JoinStrandsNothing(s: State, op: Op)
    requires Inv(s) && Allowed(s, op) && NothingStranded(s) && (op.JoinSubscriber? || op.JoinPublisher?)
    ensures NothingStranded(Step(s, op).0)
  {
    hide Inv, AddTopic, AddSubscriber, AddPublisher, NothingStranded;
    var pid := if op.JoinSubscriber? then op.subArgs.pid else op.pubArgs.pid;
    var domain := DomainOf(s.procs, pid);
    var c := Cell(op.ns, op.name, domain);
    AddTopicStrandsNothing(s, c, op.topicOk);
    AddTopicKeeps(s, c, op.topicOk);
    var (s1, found) := AddTopic(s, c, op.topicOk);
    if found.Some? {
      var t := s1.topics[found.value];
      StoreFacts(s1, found.value);
      StoreNotStranded(s1, found.value);
      if op.JoinSubscriber? {
        JoinedStrandsNothing(s.procs, t, domain, op.subArgs, PubArgs(0, 0, false), op.fault);
        PutStrands(s1, found.value, AddSubscriber(t, domain, op.subArgs, op.fault).0);
      } else {
        JoinedStrandsNothing(s.procs, t, domain, SubArgs(0, 0, false, false, false, None), op.pubArgs, op.fault);
        PutStrands(s1, found.value, AddPublisher(t, domain, op.pubArgs, op.fault).0);
      }
    }
  }

  lemma StoreNotStranded(s: State, T: int)
    requires NothingStranded(s) && T in s.topics
    ensures !Stranded(s.procs, s.topics[T])
  {
  }

  lemma WrapperStrandsNothing(s: State, c: Cell)
    requires NothingStranded(s) && c in s.wrappers && s.wrappers[c] in s.topics
    ensures NothingStranded(ReleaseWrapper(s, c))
  {
    hide Stranded, HasDomainEndpoint;
    var t := s.topics[s.wrappers[c]];
    RefcntStrandsNothing(s.procs, t, Max(0, t.refcnt - 1));
  }

  /** A publisher's own departure frees its messages and no one else's. */
  lemma PublisherGoneStrandsNothing(procs: map<int, Process>, t: Topic, p: int)
    requires !Stranded(procs, t)
    ensures !Stranded(procs, RemovePublisher(t, p))
  {
    hide Filter, Count, Swept;
    var u := RemovePublisher(t, p);
    assert DeadPublishers(procs, u) <= DeadPublishers(procs, t);
    forall e | e in u.entries ensures e in t.entries {
      UnclearedMember(t.entries, {p}, e);
    }
  }

  lemma UnclearedMember(es: seq<Entry>, doomed: set<int>, e: Entry)
    requires e in Swept(es, {}, doomed)
    ensures e in es
  {
    hide Swept;
    SweptMember(es, {}, doomed, e);
    var i :| 0 <= i < |es| && e == es[i].(refs := es[i].refs - {});
    assert es[i].refs - {} == es[i].refs;
  }

  /** The exit of a publisher's process sweeps that publisher's messages at once. */
  lemma ExitedStoreNotStranded(before: map<int, Process>, t: Topic, pid: int)
    requires Consistent(t) && pid in before && !Stranded(before, t)
    ensures !Stranded(Exited(before, pid), Exit(Exited(before, pid), t, pid))
  {
    hide Consistent, Swept, Count, Exited;
    var after := Exited(before, pid);
    var gone, u := SubscribersOf(t, pid), Exit(after, t, pid);
    ExitedFacts(before, pid);
    if gone != {} {
      ExitSweepsStranded(after, t, pid);
      assert DeadPublishers(after, u) <= DeadPublishers(after, t);
    } else {
      SweepLeavesReferenced(t, {}, PublishersOf(t, pid));
      forall e | e in u.entries && e.publisher in DeadPublishers(after, u) ensures e.refs != {} {
        UnclearedMember(t.entries, PublishersOf(t, pid), e);
        assert e.publisher in PublishersOf(t, pid) || e.publisher in DeadPublishers(before, t);
      }
    }
  }

  lemma ExitStrandsNothing(s: State, pid: int)
    requires Inv(s) && NothingStranded(s)
    ensures NothingStranded(DoExit(s, pid))
  {
    hide Inv, Exit, Exited, HasDomainEndpoint, CellsOf, Free, Stranded;
    var u := DoExit(s, pid);
    if pid in s.procs {
      var procs := Exited(s.procs, pid);
      forall T | T in u.topics ensures !Stranded(u.procs, u.topics[T]) {
        StoreFacts(s, T);
        ExitedStoreNotStranded(s.procs, s.topics[T], pid);
        RefcntStrandsNothing(procs, Exit(procs, s.topics[T], pid), u.topics[T].refcnt);
      }
    }
  }

  /** A step that concerns no store ends the life of no process but a daemon's. */
  lemma AdministrationKillsNobody(s: State, op: Op, pid: int)
    requires Allowed(s, op) && Administrative(op) && Participant(s.procs, pid)
    ensures !Dead(Step(s, op).0.procs, pid)
  {
    hide AddExact, AddPrefix, Assign, Free, FirstFree, HasDaemon, HasManager, HasAgent, ProcessesOf, ProcessesIn,
         AliveIn, DoJoinSubscriber, DoJoinPublisher, DoPublish, DoReceive, DoTake, DoRelease, DoLeaveSubscriber,
         DoLeavePublisher, DoExit;
  }

  lemma PublishersStayAlive(s: State, op: Op, T: int)
    requires Inv(s) && Allowed(s, op) && Administrative(op) && T in s.topics
    ensures DeadPublishers(Step(s, op).0.procs, s.topics[T]) <= DeadPublishers(s.procs, s.topics[T])
  {
    hide Inv, Allowed, Step, Consistent, NoStaleDead;
    StoreFacts(s, T);
    forall p | p in s.topics[T].pubs && !Dead(s.procs, s.topics[T].pubs[p].pid)
      ensures !Dead(Step(s, op).0.procs, s.topics[T].pubs[p].pid)
    {
      AdministrationKillsNobody(s, op, s.topics[T].pubs[p].pid);
    }
  }

  lemma AdministrationStrandsNothing(s: State, op: Op)
    requires Inv(s) && Allowed(s, op) && Administrative(op) && NothingStranded(s)
    ensures NothingStranded(Step(s, op).0)
  {
    hide Inv, Allowed, Step, Stranded, DeadPublishers;
    AdministrativeStep(s, op);
    var u := Step(s, op).0;
    forall T | T in u.topics ensures !Stranded(u.procs, u.topics[T]) {
      PublishersStayAlive(s, op, T);
      SameTree(s.procs, s.topics[T], u.procs, u.topics[T]);
    }
  }

  lemma ReleaseStep(s: State, op: Op)
    requires Inv(s) && NothingStranded(s) && op.ReleaseRef?
    ensures NothingStranded(Step(s, op).0) <==> !ReleasesLastOfDead(s, op)
  {
    hide Inv, Consistent, Release, Stranded, NothingStranded, DeadPublishers, Holds;
    var found := StoreAt(s, op.pid, op.ns, op.name);
    if found.Some? {
      var t := s.topics[found.value];
      StoreFacts(s, found.value);
      StoreNotStranded(s, found.value);
      PutStrands(s, found.value, Release(t, op.id, op.entry).0);
      if Holds(t, op.id, op.entry) {
        ReleaseStrandsExactly(s.procs, t, op.id, op.entry);
      } else {
        NotHeld(t, op.id, op.entry);
      }
    }
  }

  lemma NotHeld(t: Topic, s: int, id: int)
    requires !Holds(t, s, id)
    ensures Release(t, s, id).0 == t
    ensures forall e :: e in t.entries && e.id == id ==> e.refs != {s}
  {
    forall e | e in t.entries && e.id == id ensures s !in e.refs {
      var i :| 0 <= i < |t.entries| && t.entries[i] == e;
    }
  }

  /**
    Exactly one kind of step leaves a dead publisher with a message nobody references: the release of
    a dead publisher's message by its only holder.
   */
  lemma StepStrandsExactly(s: State, op: Op)
    requires Inv(s) && Allowed(s, op) && NothingStranded(s)
    ensures NothingStranded(Step(s, op).0) <==> !ReleasesLastOfDead(s, op)
  {
    hide Inv, NothingStranded, ReleasesLastOfDead, HandedOut, Batch, TakeCandidate, Window, MapPublishers, Published,
         Inserted, Reclaimable, WalkRunsOff, Release, RemoveSubscriber, RemovePublisher, ReleaseWrapper, DoExit,
         DoAddProcess, DoCheckBridgeShutdown, DoAddAgent, DoAgentShouldExit, DoCommitExit, AddExact, AddPrefix,
         DoJoinSubscriber, DoJoinPublisher;
    assert !op.ReleaseRef? ==> !ReleasesLastOfDead(s, op) by { OnlyReleases(s, op); }
    match op {
      case JoinSubscriber(_, _, _, _, _) => JoinStrandsNothing(s, op);
      case JoinPublisher(_, _, _, _, _) => JoinStrandsNothing(s, op);
      case PublishMsg(pid, ns, name, p, addr, _) =>
        var found := StoreAt(s, pid, ns, name);
        if found.Some? && p in s.topics[found.value].pubs {
          StoreNotStranded(s, found.value);
          PublishStrandsNothing(s.procs, s.topics[found.value], p, addr);
          PutStrands(s, found.value, Published(s.topics[found.value], p, addr));
        }
      case ReceiveMsg(pid, ns, name, q, b, shm) =>
        var found := StoreAt(s, pid, ns, name);
        if found.Some? && q in s.topics[found.value].subs {
          var t := s.topics[found.value];
          HandedOutKeepsSub(t, q, Batch(WorldOf(s), t, t.subs[q]));
          DeliveryStrandsNothing(s, found.value, q, Batch(WorldOf(s), t, t.subs[q]), DomainOf(s.procs, pid), b, shm);
        }
      case TakeMsg(pid, ns, name, q, same, b, shm) =>
        var found := StoreAt(s, pid, ns, name);
        if found.Some? && q in s.topics[found.value].subs {
          var t := s.topics[found.value];
          var batch := TakeCandidate(WorldOf(s), t, t.subs[q], same);
          HandedOutKeepsSub(t, q, batch);
          DeliveryStrandsNothing(s, found.value, q, batch, DomainOf(s.procs, pid), b, shm);
        }
      case ReleaseRef(_, _, _, _, _) => ReleaseStep(s, op);
      case LeaveSubscriber(pid, ns, name, q) =>
        var found := StoreAt(s, pid, ns, name);
        if found.Some? && q in s.topics[found.value].subs {
          var u := RemoveSubscriber(s.procs, s.topics[found.value], q);
          StoreFacts(s, found.value);
          DepartureSweepsStranded(s.procs, s.topics[found.value], q);
          PutStrands(s, found.value, u);
          WrapperStrandsNothing(Put(s, found.value, u), Cell(ns, name, DomainOf(s.procs, pid)));
        }
      case LeavePublisher(pid, ns, name, p) =>
        var found := StoreAt(s, pid, ns, name);
        if found.Some? && p in s.topics[found.value].pubs {
          var u := RemovePublisher(s.topics[found.value], p);
          StoreNotStranded(s, found.value);
          PublisherGoneStrandsNothing(s.procs, s.topics[found.value], p);
          PutStrands(s, found.value, u);
          WrapperStrandsNothing(Put(s, found.value, u), Cell(ns, name, DomainOf(s.procs, pid)));
        }
      case ProcessExit(pid) => ExitStrandsNothing(s, pid);
      case _ => AdministrationStrandsNothing(s, op);
    }
  }

  lemma OnlyReleases(s: State, op: Op)
    ensures !op.ReleaseRef? ==> !ReleasesLastOfDead(s, op)
  {
  }

  /** A run meets no stranded message up to some point exactly when it has made no such release before. */
  lemma {:induction false} RunStrandsExactly(states: seq<State>, ops: seq<Op>, n: nat)
    requires Run(states, ops) && n < |states|
    ensures (forall i :: 0 <= i <= n ==> NothingStranded(states[i]))
       <==> (forall i :: 0 <= i < n ==> !ReleasesLastOfDead(states[i], ops[i]))
  {
    hide Inv, Init, Allowed, Step, NothingStranded, ReleasesLastOfDead;
    if n == 0 {
      assert NothingStranded(states[0]) by { NoStores(states[0]); }
    } else {
      RunStrandsExactly(states, ops, n - 1);
      RunKeeps(states, ops, n - 1);
      assert states[(n - 1) + 1] == Step(states[n - 1], ops[n - 1]).0;
      if NothingStranded(states[n - 1]) {
        StepStrandsExactly(states[n - 1], ops[n - 1]);
      }
    }
  }

  lemma NoStores(s: State)
    requires Init(s)
    ensures NothingStranded(s)
  {
  }
}
