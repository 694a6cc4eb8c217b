// When a wrapper is left without an endpoint of its own domain, step by step.

module WrapperDomains {
  import opened Base
  import opened Seqs
  import opened TopicModel
  import opened StoreInvariant
  import opened DomainRules
  import opened Mempools
  import opened KernelModel
  import opened KernelInvariant
  import opened ProcessInvariant
  import opened Lifetime
  import opened Reclamation

  ghost predicate EveryWrapperUsed(s: State) {
    forall c :: c in s.wrappers ==>
      s.wrappers[c] in s.topics && HasDomainEndpoint(s.topics[s.wrappers[c]], c.domain)
  }

  // ---------- The two kinds of step that leave a wrapper unused ----------

  /** The store in which a cell without a wrapper is joined: its partner's if that has one, else a new one. */
  ghost function StoreToJoin(s: State, c: Cell): Topic {
    var d := Partner(s.rules, c);
    if d.Some? && d.value in s.wrappers && s.wrappers[d.value] in s.topics then s.topics[s.wrappers[d.value]]
    else EmptyTopic(Find(s.rules, c))
  }

  predicate SubscriberRefused(t: Topic, a: SubArgs, fault: Fault) {
    || |t.subs| == MAX_SUBSCRIBER_NUM || t.nextId >= MAX_TOPIC_LOCAL_ID
    || fault.AllocFault? || (fault.ReserveFault? && a.ctx.Some?)
  }

  predicate PublisherRefused(t: Topic, fault: Fault) {
    || |t.pubs| == MAX_PUBLISHER_NUM || t.nextId >= MAX_TOPIC_LOCAL_ID
    || fault.AllocFault? || fault.ReserveFault?
  }

  /** A join that is refused after it has made the wrapper of its cell. */
  ghost predicate RefusedJoin(s: State, op: Op) {
    match op
    case JoinSubscriber(ns, name, a, topicOk, fault) =>
      var c := Cell(ns, name, DomainOf(s.procs, a.pid));
      c !in s.wrappers && topicOk && SubscriberRefused(StoreToJoin(s, c), a, fault)
    case JoinPublisher(ns, name, a, topicOk, fault) =>
      var c := Cell(ns, name, DomainOf(s.procs, a.pid));
      c !in s.wrappers && topicOk && PublisherRefused(StoreToJoin(s, c), fault)
    case _ => false
  }

  /** A subscriber leaves a shared store whose other domain has only dead publishers, read by it alone. */
  ghost predicate AbandonsPartner(s: State, op: Op) {
    op.LeaveSubscriber? &&
    var found := StoreAt(s, op.pid, op.ns, op.name);
    found.Some? && op.id in s.topics[found.value].subs &&
    exists d :: d in OtherCells(s, found.value, Cell(op.ns, op.name, DomainOf(s.procs, op.pid))) &&
      !EndpointsBut(s.procs, s.topics[found.value], op.id, d.domain)
  }

  function OtherCells(s: State, T: int, c: Cell): set<Cell> {
    CellsOf(s.wrappers, T) - {c}
  }

  // ---------- Steps that keep endpoints ----------

  /** Every endpoint of `t` is in `u`, under its domain. */
  ghost predicate KeepsEndpoints(t: Topic, u: Topic) {
    && (forall p :: p in t.pubs ==> p in u.pubs && u.pubs[p].domain == t.pubs[p].domain)
    && (forall q :: q in t.subs ==> q in u.subs && u.subs[q].domain == t.subs[q].domain)
  }

  lemma KeptEndpoint(t: Topic, u: Topic, domain: nat)
    requires KeepsEndpoints(t, u) && HasDomainEndpoint(t, domain)
    ensures HasDomainEndpoint(u, domain)
  {
    if p :| p in t.pubs && t.pubs[p].domain == domain {
      assert p in u.pubs && u.pubs[p].domain == domain;
    } else {
      var q :| q in t.subs && t.subs[q].domain == domain;
      assert q in u.subs && u.subs[q].domain == domain;
    }
  }

  ghost predicate StoresKeepEndpoints(before: map<int, Topic>, after: map<int, Topic>) {
    forall T :: T in before ==> T in after && KeepsEndpoints(before[T], after[T])
  }

  lemma KeptInStore(before: map<int, Topic>, after: map<int, Topic>, T: int, domain: nat)
    requires StoresKeepEndpoints(before, after) && T in before && HasDomainEndpoint(before[T], domain)
    ensures T in after && HasDomainEndpoint(after[T], domain)
  {
    hide HasDomainEndpoint, KeepsEndpoints;
    KeptEndpoint(before[T], after[T], domain);
  }

  lemma WrappersStayUsed(s: State, u: State)
    requires EveryWrapperUsed(s) && u.wrappers == s.wrappers && StoresKeepEndpoints(s.topics, u.topics)
    ensures EveryWrapperUsed(u)
  {
    hide StoresKeepEndpoints, HasDomainEndpoint;
    forall c | c in u.wrappers
      ensures u.wrappers[c] in u.topics && HasDomainEndpoint(u.topics[u.wrappers[c]], c.domain)
    {
      KeptInStore(s.topics, u.topics, s.wrappers[c], c.domain);
    }
  }

  lemma SameEndpoints(t: Topic)
    ensures KeepsEndpoints(t, t)
  {
  }

  lemma PutStaysUsed(s: State, T: int, u: Topic, v: State)
    requires EveryWrapperUsed(s) && T in s.topics && KeepsEndpoints(s.topics[T], u)
    requires v.wrappers == s.wrappers && v.topics == s.topics[T := u]
    ensures EveryWrapperUsed(v)
  {
    hide KeepsEndpoints, EveryWrapperUsed;
    forall U | U in s.topics ensures KeepsEndpoints(s.topics[U], v.topics[U]) {
      SameEndpoints(s.topics[U]);
    }
    WrappersStayUsed(s, v);
  }

  lemma PublishedKeepsEndpoints(t: Topic, p: int, addr: int)
    requires p in t.pubs
    ensures KeepsEndpoints(t, Published(t, p, addr))
  {
    hide Filter, Reclaimable;
  }

  lemma HandedOutKeepsEndpoints(t: Topic, q: int, batch: seq<Entry>, needMmap: bool)
    requires q in t.subs
    ensures var u := HandedOut(t, q, batch);
      && q in u.subs && KeepsEndpoints(t, u)
      && KeepsEndpoints(t, u.(subs := u.subs[q := u.subs[q].(needMmap := needMmap)]))
  {
  }

  lemma DeliveryStaysUsed(s: State, T: int, q: int, batch: seq<Entry>, domain: nat, buffers: nat, shm: ShmFault)
    requires EveryWrapperUsed(s) && T in s.topics && q in s.topics[T].subs
    requires q in HandedOut(s.topics[T], q, batch).subs
    ensures EveryWrapperUsed(MapPublishers(s, T, HandedOut(s.topics[T], q, batch), q, domain, buffers, shm).0)
  {
    hide HandedOut, PoolsToMap, Unmappable, MappedInto, EveryWrapperUsed, KeepsEndpoints;
    var u := HandedOut(s.topics[T], q, batch);
    var v := MapPublishers(s, T, u, q, domain, buffers, shm).0;
    HandedOutKeepsEndpoints(s.topics[T], q, batch, false);
    PutStaysUsed(s, T, v.topics[T], v);
  }

  lemma ReleaseKeepsEndpoints(t: Topic, q: int, id: int)
    ensures KeepsEndpoints(t, Release(t, q, id).0)
  {
  }

  // ---------- Joins ----------

  lemma WrapperForJoin(s: State, c: Cell)
    requires Inv(s) && c !in s.wrappers
    ensures var (u, found) := AddTopic(s, c, true);
      && found.Some? && found.value in u.topics
      && u.wrappers == s.wrappers[c := found.value]
      && u.topics[found.value] == StoreToJoin(s, c).(refcnt := u.topics[found.value].refcnt)
      && StoresKeepEndpoints(s.topics, u.topics)
  {
    hide Inv, Find, Partner;
    StoreNamesBelow(s);
  }

  lemma StoreNamesBelow(s: State)
    requires Inv(s)
    ensures s.nextTopic !in s.topics
    ensures forall c :: c in s.wrappers ==> s.wrappers[c] in s.topics
  {
  }

  /** A partner store has no endpoint of a domain that has no wrapper on it. */
  lemma NobodyOfNewCell(s: State, c: Cell)
    requires Inv(s) && c !in s.wrappers
    ensures !HasDomainEndpoint(StoreToJoin(s, c), c.domain)
  {
    hide StoresOk, LiveOk, MemoryOk, RegistryOk, CachedRulesOk, Find, Partner, CellsOf, HasDomainEndpoint, Disjoint;
    var d := Partner(s.rules, c);
    if d.Some? && d.value in s.wrappers && s.wrappers[d.value] in s.topics {
      PartnerInvolution(s.rules, c);
      PartnerDomain(s.rules, c, d.value);
      NobodyElsewhere(s, s.wrappers[d.value], c, d.value);
    } else {
      NobodyInEmpty(Find(s.rules, c), c.domain);
    }
  }

  lemma NobodyInEmpty(rule: Option<int>, domain: nat)
    ensures !HasDomainEndpoint(EmptyTopic(rule), domain)
  {
  }

  lemma NobodyElsewhere(s: State, T: int, c: Cell, d: Cell)
    requires PairsOk(s.rules, s.wrappers) && T in s.topics && Homed(s.wrappers, T, s.topics[T])
    requires c !in s.wrappers && d in s.wrappers && s.wrappers[d] == T && d.domain != c.domain
    requires Partner(s.rules, d) == Some(c)
    ensures !HasDomainEndpoint(s.topics[T], c.domain)
  {
    hide Partner;
    assert forall e :: e in CellsOf(s.wrappers, T) ==> e == d;
  }

  /** What a join does to the endpoints of its store. */
  lemma SubscriberJoined(t: Topic, domain: nat, a: SubArgs, fault: Fault)
    requires Consistent(t)
    ensures var (u, r) := AddSubscriber(t, domain, a, fault);
      && KeepsEndpoints(t, u)
      && (r.Err? <==> SubscriberRefused(t, a, fault))
      && (r.Ok? ==> HasDomainEndpoint(u, domain))
      && (r.Err? ==> u.pubs == t.pubs && u.subs == t.subs)
  {
    hide Count;
    var (u, r) := AddSubscriber(t, domain, a, fault);
    if r.Ok? {
      assert t.nextId in u.subs && u.subs[t.nextId].domain == domain;
    }
  }

  lemma PublisherJoined(t: Topic, domain: nat, a: PubArgs, fault: Fault)
    requires Consistent(t)
    ensures var (u, r) := AddPublisher(t, domain, a, fault);
      && KeepsEndpoints(t, u)
      && (r.Err? <==> PublisherRefused(t, fault))
      && (r.Ok? ==> HasDomainEndpoint(u, domain))
      && (r.Err? ==> u.pubs == t.pubs && u.subs == t.subs)
  {
    hide Count;
    var (u, r) := AddPublisher(t, domain, a, fault);
    if r.Ok? {
      assert t.nextId in u.pubs && u.pubs[t.nextId].domain == domain;
    }
  }

  /** After a join in store `T`, every wrapper is used exactly if the joined cell is. */
  lemma UsedAfterJoin(s: State, s1: State, c: Cell, T: int, u: Topic)
    requires EveryWrapperUsed(s) && s1.wrappers == s.wrappers[c := T] && T in s1.topics
    requires StoresKeepEndpoints(s.topics, s1.topics) && KeepsEndpoints(s1.topics[T], u)
    ensures EveryWrapperUsed(Put(s1, T, u)) <==> HasDomainEndpoint(u, c.domain)
  {
    hide KeepsEndpoints, StoresKeepEndpoints, HasDomainEndpoint;
    var v := Put(s1, T, u);
    assert c in v.wrappers && v.topics[v.wrappers[c]] == u;
    forall e | e in s.wrappers && e != c
      ensures v.wrappers[e] in v.topics && HasDomainEndpoint(v.topics[v.wrappers[e]], e.domain)
    {
      KeptInStore(s.topics, s1.topics, s.wrappers[e], e.domain);
      if s.wrappers[e] == T {
        KeptEndpoint(s1.topics[T], u, e.domain);
      }
    }
  }

  lemma EndpointsOnly(t: Topic, u: Topic)
    requires u.pubs == t.pubs && u.subs == t.subs
    ensures forall domain :: HasDomainEndpoint(u, domain) <==> HasDomainEndpoint(t, domain)
  {
  }

  lemma NewCellJoined(s: State, c: Cell, T: int, u: Topic, refused: bool)
    requires Inv(s) && EveryWrapperUsed(s) && c !in s.wrappers && AddTopic(s, c, true).1 == Some(T)
    requires T in AddTopic(s, c, true).0.topics
    requires KeepsEndpoints(AddTopic(s, c, true).0.topics[T], u)
    requires !refused ==> HasDomainEndpoint(u, c.domain)
    requires refused ==> var t := AddTopic(s, c, true).0.topics[T]; u.pubs == t.pubs && u.subs == t.subs
    ensures EveryWrapperUsed(Put(AddTopic(s, c, true).0, T, u)) <==> !refused
  {
    hide Inv, AddTopic, StoreToJoin, KeepsEndpoints, HasDomainEndpoint, EveryWrapperUsed;
    WrapperForJoin(s, c);
    NobodyOfNewCell(s, c);
    var s1 := AddTopic(s, c, true).0;
    UsedAfterJoin(s, s1, c, T, u);
    if refused {
      EndpointsOnly(StoreToJoin(s, c), u);
    }
  }

  lemma OldCellJoined(s: State, c: Cell, topicOk: bool)
    requires c in s.wrappers
    ensures AddTopic(s, c, topicOk) == (s, Some(s.wrappers[c]))
  {
  }

  lemma NoWrapperMade(s: State, c: Cell)
    requires c !in s.wrappers
    ensures AddTopic(s, c, false) == (s, None)
  {
  }

  lemma SameRefusal(t: Topic, n: nat, a: SubArgs, fault: Fault)
    ensures SubscriberRefused(t.(refcnt := n), a, fault) == SubscriberRefused(t, a, fault)
    ensures PublisherRefused(t.(refcnt := n), fault) == PublisherRefused(t, fault)
  {
  }

  lemma SubscriberJoinUses(s: State, ns: int, name: string, a: SubArgs, topicOk: bool, fault: Fault)
    requires Inv(s) && EveryWrapperUsed(s)
    ensures EveryWrapperUsed(DoJoinSubscriber(s, ns, name, a, topicOk, fault).0)
       <==> !RefusedJoin(s, JoinSubscriber(ns, name, a, topicOk, fault))
  {
    hide Inv, AddTopic, AddSubscriber, StoreToJoin, SubscriberRefused, KeepsEndpoints, HasDomainEndpoint,
         EveryWrapperUsed;
    var domain := DomainOf(s.procs, a.pid);
    var c := Cell(ns, name, domain);
    AddTopicKeeps(s, c, topicOk);
    var (s1, found) := AddTopic(s, c, topicOk);
    if found.Some? {
      var t := s1.topics[found.value];
      StoreFacts(s1, found.value);
      SubscriberJoined(t, domain, a, fault);
      var u := AddSubscriber(t, domain, a, fault).0;
      if c in s.wrappers {
        OldCellJoined(s, c, topicOk);
        PutStaysUsed(s, found.value, u, Put(s, found.value, u));
      } else if topicOk {
        WrapperForJoin(s, c);
        SameRefusal(StoreToJoin(s, c), t.refcnt, a, fault);
        NewCellJoined(s, c, found.value, u, SubscriberRefused(t, a, fault));
      } else {
        NoWrapperMade(s, c);
      }
    } else {
      JoinFindsNothing(s, c, topicOk);
    }
  }

  lemma JoinFindsNothing(s: State, c: Cell, topicOk: bool)
    requires AddTopic(s, c, topicOk).1.None?
    ensures !topicOk && AddTopic(s, c, topicOk).0 == s
  {
    hide Find, Partner;
  }

  lemma PublisherJoinUses(s: State, ns: int, name: string, a: PubArgs, topicOk: bool, fault: Fault)
    requires Inv(s) && EveryWrapperUsed(s)
    ensures EveryWrapperUsed(DoJoinPublisher(s, ns, name, a, topicOk, fault).0)
       <==> !RefusedJoin(s, JoinPublisher(ns, name, a, topicOk, fault))
  {
    hide Inv, AddTopic, AddPublisher, StoreToJoin, PublisherRefused, KeepsEndpoints, HasDomainEndpoint,
         EveryWrapperUsed;
    var domain := DomainOf(s.procs, a.pid);
    var c := Cell(ns, name, domain);
    AddTopicKeeps(s, c, topicOk);
    var (s1, found) := AddTopic(s, c, topicOk);
    if found.Some? {
      var t := s1.topics[found.value];
      StoreFacts(s1, found.value);
      PublisherJoined(t, domain, a, fault);
      var u := AddPublisher(t, domain, a, fault).0;
      if c in s.wrappers {
        OldCellJoined(s, c, topicOk);
        PutStaysUsed(s, found.value, u, Put(s, found.value, u));
      } else if topicOk {
        WrapperForJoin(s, c);
        SameRefusal(StoreToJoin(s, c), t.refcnt, SubArgs(0, 0, false, false, false, None), fault);
        NewCellJoined(s, c, found.value, u, PublisherRefused(t, fault));
      } else {
        NoWrapperMade(s, c);
      }
    } else {
      JoinFindsNothing(s, c, topicOk);
    }
  }

  // ---------- Departures ----------

  /** A departure through cell `c` leaves every wrapper used exactly if the store's other cells are. */
  lemma UsedAfterRelease(s: State, T: int, u: Topic, c: Cell)
    requires Inv(s) && EveryWrapperUsed(s) && T in s.topics && c in s.wrappers && s.wrappers[c] == T
    requires u.refcnt == s.topics[T].refcnt
    ensures EveryWrapperUsed(ReleaseWrapper(Put(s, T, u), c))
       <==> forall d :: d in OtherCells(s, T, c) ==> HasDomainEndpoint(u, d.domain)
  {
    hide Inv, HasDomainEndpoint;
    StoreNamesBelow(s);
    ReferencesCounted(s, T);
    LastCell(s.wrappers, c);
    var v := ReleaseWrapper(Put(s, T, u), c);
    EndpointsOnly(u, u.(refcnt := Max(0, u.refcnt - 1)));
    forall d | d in s.wrappers && s.wrappers[d] != T
      ensures d in v.wrappers && v.wrappers[d] in v.topics && HasDomainEndpoint(v.topics[v.wrappers[d]], d.domain)
    {
    }
    forall d | d in OtherCells(s, T, c)
      ensures d in v.wrappers && v.wrappers[d] == T && T in v.topics
      ensures HasDomainEndpoint(v.topics[T], d.domain) <==> HasDomainEndpoint(u, d.domain)
    {
    }
    assert c in v.wrappers ==> v.wrappers[c] == T && T in v.topics && v.topics[T] == u;
  }

  lemma SubscriberLeaveUses(s: State, pid: int, ns: int, name: string, id: int)
    requires Inv(s) && EveryWrapperUsed(s)
    ensures EveryWrapperUsed(DoLeaveSubscriber(s, pid, ns, name, id).0)
       <==> !AbandonsPartner(s, LeaveSubscriber(pid, ns, name, id))
  {
    hide Inv, RemoveSubscriber, ReleaseWrapper, EndpointsBut, HasDomainEndpoint, EveryWrapperUsed, OtherCells,
         Consistent;
    var found := StoreAt(s, pid, ns, name);
    if found.Some? && id in s.topics[found.value].subs {
      var t := s.topics[found.value];
      var u, c := RemoveSubscriber(s.procs, t, id), Cell(ns, name, DomainOf(s.procs, pid));
      StoreFacts(s, found.value);
      RemoveSubscriberIs(s.procs, t, id);
      SweepShrinks(t, {id}, DeadPublishers(s.procs, t));
      UsedAfterRelease(s, found.value, u, c);
      forall d | d in OtherCells(s, found.value, c)
        ensures HasDomainEndpoint(u, d.domain) <==> EndpointsBut(s.procs, t, id, d.domain)
      {
        DomainOutlivesRemoval(s.procs, t, id, d.domain);
      }
    }
  }

  lemma OtherCellOtherDomain(s: State, T: int, c: Cell, d: Cell)
    requires Inv(s) && c in s.wrappers && s.wrappers[c] == T && d in OtherCells(s, T, c)
    ensures d.domain != c.domain
  {
    hide StoresOk, LiveOk, MemoryOk, RegistryOk, CachedRulesOk, RefcntsOk, Disjoint, Partner;
    PartnerDomain(s.rules, c, d);
  }

  lemma PartnerDomain(rules: map<int, Rule>, c: Cell, d: Cell)
    requires Disjoint(rules) && Partner(rules, c) == Some(d)
    ensures d.domain != c.domain
  {
    hide Find;
    var i := Find(rules, c).value;
    FindIs(rules, c, i);
    OtherSideMatches(rules[i], c);
  }

  /** The other domain's endpoints do not notice that a publisher of this one leaves. */
  lemma OtherDomainStays(t: Topic, p: int, domain: nat)
    requires Consistent(t) && p in t.pubs && t.pubs[p].domain != domain && HasDomainEndpoint(t, domain)
    ensures HasDomainEndpoint(RemovePublisher(t, p), domain)
  {
    hide Consistent, Swept, Recounted;
    var u := RemovePublisher(t, p);
    if q :| q in t.pubs && t.pubs[q].domain == domain {
      SweepKeepsOthers(t, {}, {p}, q);
      assert q in u.pubs && u.pubs[q].domain == domain;
    } else {
      var q :| q in t.subs && t.subs[q].domain == domain;
      assert q in u.subs && u.subs[q].domain == domain;
    }
  }

  lemma PublisherLeaveUses(s: State, pid: int, ns: int, name: string, id: int)
    requires Inv(s) && EveryWrapperUsed(s) && OwnsPublisher(s, pid, ns, name, id)
    ensures EveryWrapperUsed(DoLeavePublisher(s, pid, ns, name, id).0)
  {
    hide Inv, RemovePublisher, ReleaseWrapper, HasDomainEndpoint, EveryWrapperUsed, OtherCells, Consistent,
         NoStaleDead, Homed;
    var found := StoreAt(s, pid, ns, name);
    if found.Some? && id in s.topics[found.value].pubs {
      var t := s.topics[found.value];
      var u, c := RemovePublisher(t, id), Cell(ns, name, DomainOf(s.procs, pid));
      StoreFacts(s, found.value);
      assert t.pubs[id].domain == c.domain;
      PublisherSweepShrinks(t, id);
      UsedAfterRelease(s, found.value, u, c);
      forall d | d in OtherCells(s, found.value, c) ensures HasDomainEndpoint(u, d.domain) {
        OtherCellOtherDomain(s, found.value, c, d);
        OtherCellUsed(s, found.value, c, d);
        OtherDomainStays(t, id, d.domain);
      }
    }
  }

  lemma PublisherSweepShrinks(t: Topic, p: int)
    ensures RemovePublisher(t, p).refcnt == t.refcnt
  {
    hide Swept, Recounted;
  }

  lemma OtherCellUsed(s: State, T: int, c: Cell, d: Cell)
    requires EveryWrapperUsed(s) && T in s.topics && d in OtherCells(s, T, c)
    ensures HasDomainEndpoint(s.topics[T], d.domain)
  {
    hide HasDomainEndpoint;
  }

  lemma ExitUses(s: State, pid: int)
    requires Inv(s) && EveryWrapperUsed(s)
    ensures EveryWrapperUsed(DoExit(s, pid))
  {
    hide Inv, Exit, Exited, HasDomainEndpoint, Free, Reclaimed, Homed;
    if pid in s.procs {
      ExitReclaimsEverything(s, pid);
    }
  }

  // ---------- Every step ----------

  /**
    Exactly two kinds of step leave a wrapper without an endpoint of its domain: a refused join that
    made the wrapper, and the leave of the only reader of what the other domain's dead publishers left.
   */
  lemma StepUsesExactly(s: State, op: Op)
    requires Inv(s) && Allowed(s, op) && EveryWrapperUsed(s)
    ensures EveryWrapperUsed(Step(s, op).0) <==> !RefusedJoin(s, op) && !AbandonsPartner(s, op)
  {
    hide Inv, EveryWrapperUsed, RefusedJoin, AbandonsPartner, KeepsEndpoints, HandedOut, Batch, TakeCandidate, Window,
         MapPublishers, Published, Inserted, Reclaimable, WalkRunsOff, Release, DoLeaveSubscriber, DoLeavePublisher,
         DoExit, DoAddProcess, DoCheckBridgeShutdown, DoAddAgent, DoAgentShouldExit, DoCommitExit, AddExact, AddPrefix,
         DoJoinSubscriber, DoJoinPublisher;
    OnlyThese(s, op);
    match op {
      case JoinSubscriber(ns, name, a, topicOk, fault) => SubscriberJoinUses(s, ns, name, a, topicOk, fault);
      case JoinPublisher(ns, name, a, topicOk, fault) => PublisherJoinUses(s, ns, name, a, topicOk, fault);
      case PublishMsg(pid, ns, name, p, addr, _) =>
        var found := StoreAt(s, pid, ns, name);
        if found.Some? && p in s.topics[found.value].pubs {
          var u := Published(s.topics[found.value], p, addr);
          PublishedKeepsEndpoints(s.topics[found.value], p, addr);
          PutStaysUsed(s, found.value, u, Put(s, found.value, u));
        }
      case ReceiveMsg(pid, ns, name, q, b, shm) =>
        var found := StoreAt(s, pid, ns, name);
        if found.Some? && q in s.topics[found.value].subs {
          var t := s.topics[found.value];
          HandedOutKeepsSub(t, q, Batch(WorldOf(s), t, t.subs[q]));
          DeliveryStaysUsed(s, found.value, q, Batch(WorldOf(s), t, t.subs[q]), DomainOf(s.procs, pid), b, shm);
        }
      case TakeMsg(pid, ns, name, q, same, b, shm) =>
        var found := StoreAt(s, pid, ns, name);
        if found.Some? && q in s.topics[found.value].subs {
          var t := s.topics[found.value];
          var batch := TakeCandidate(WorldOf(s), t, t.subs[q], same);
          HandedOutKeepsSub(t, q, batch);
          DeliveryStaysUsed(s, found.value, q, batch, DomainOf(s.procs, pid), b, shm);
        }
      case ReleaseRef(pid, ns, name, q, entry) =>
        var found := StoreAt(s, pid, ns, name);
        if found.Some? {
          var u := Release(s.topics[found.value], q, entry).0;
          ReleaseKeepsEndpoints(s.topics[found.value], q, entry);
          PutStaysUsed(s, found.value, u, Put(s, found.value, u));
        }
      case LeaveSubscriber(pid, ns, name, q) => SubscriberLeaveUses(s, pid, ns, name, q);
      case LeavePublisher(pid, ns, name, p) => PublisherLeaveUses(s, pid, ns, name, p);
      case ProcessExit(pid) => ExitUses(s, pid);
      case _ =>
        AdministrativeStep(s, op);
        SameTablesUsed(s, Step(s, op).0);
    }
  }

  lemma SameTablesUsed(s: State, u: State)
    requires u.topics == s.topics && u.wrappers == s.wrappers
    ensures EveryWrapperUsed(u) <==> EveryWrapperUsed(s)
  {
  }

  lemma OnlyThese(s: State, op: Op)
    ensures RefusedJoin(s, op) ==> op.JoinSubscriber? || op.JoinPublisher?
    ensures AbandonsPartner(s, op) ==> op.LeaveSubscriber?
  {
  }

  /** A run has every wrapper used up to some point exactly when it has taken neither step before. */
  lemma {:induction false} RunUsesExactly(states: seq<State>, ops: seq<Op>, n: nat)
    requires Run(states, ops) && n < |states|
    ensures (forall i :: 0 <= i <= n ==> EveryWrapperUsed(states[i]))
       <==> (forall i :: 0 <= i < n ==> !RefusedJoin(states[i], ops[i]) && !AbandonsPartner(states[i], ops[i]))
  {
    hide Inv, Init, Allowed, Step, EveryWrapperUsed, RefusedJoin, AbandonsPartner;
    if n == 0 {
      assert EveryWrapperUsed(states[0]) by { NoWrappers(states[0]); }
    } else {
      RunUsesExactly(states, ops, n - 1);
      RunKeeps(states, ops, n - 1);
      assert states[(n - 1) + 1] == Step(states[n - 1], ops[n - 1]).0;
      if EveryWrapperUsed(states[n - 1]) {
        StepUsesExactly(states[n - 1], ops[n - 1]);
      }
    }
  }

  lemma NoWrappers(s: State)
    requires Init(s)
    ensures EveryWrapperUsed(s)
  {
  }
}
