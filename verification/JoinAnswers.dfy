// What a new endpoint is, and what history a new subscriber gets.

module JoinAnswers {
  import opened Base
  import opened Seqs
  import opened TopicModel
  import opened StoreInvariant
  import opened DomainRules
  import opened Mempools
  import opened KernelModel
  import opened KernelInvariant
  import opened ProcessInvariant
  import opened Lifetime
  import opened Delivery
  import opened Answers
  import opened WrapperDomains

  /** The store of before: the one joined, or an empty one if the join has made it. */
  function Before(s: State, T: int): Topic {
    if T in s.topics then s.topics[T] else EmptyTopic(None)
  }

  function JoinCell(s: State, op: Op): Cell
    requires op.JoinSubscriber? || op.JoinPublisher?
  {
    Cell(op.ns, op.name, DomainOf(s.procs, if op.JoinSubscriber? then op.subArgs.pid else op.pubArgs.pid))
  }

  /** The join was accepted under id `id`, in store `T`. */
  ghost predicate Joins(s: State, op: Op, T: int, id: int) {
    && (op.JoinSubscriber? || op.JoinPublisher?)
    && Step(s, op).1 == Plain(Ok(id))
    && JoinCell(s, op) in Step(s, op).0.wrappers && Step(s, op).0.wrappers[JoinCell(s, op)] == T
  }

  /** What finding or making the store leaves for the join. */
  lemma StoreFound(s: State, c: Cell, topicOk: bool)
    requires Inv(s)
    ensures var (u, found) := AddTopic(s, c, topicOk);
      found.Some? ==>
        && found.value in u.topics && c in u.wrappers && u.wrappers[c] == found.value
        && Consistent(u.topics[found.value]) && u.procs == s.procs && u.rules == s.rules
        && var t, before := u.topics[found.value], Before(s, found.value);
           t.entries == before.entries && t.pubs == before.pubs && t.subs == before.subs
  {
    hide Inv, Find, Partner;
    AddTopicKeeps(s, c, topicOk);
    AddTopicElsewhere(s, c, topicOk);
    var (u, found) := AddTopic(s, c, topicOk);
    if found.Some? {
      StoreFacts(u, found.value);
    }
    FreshName(s);
  }

  lemma FreshName(s: State)
    requires Inv(s)
    ensures s.nextTopic !in s.topics
    ensures forall c :: c in s.wrappers ==> s.wrappers[c] in s.topics
  {
  }

  /** A new subscriber is what the caller asked for, asks for mappings, and changes nothing else in the store. */
  lemma SubscriberJoinAnswer(s: State, op: Op, T: int, q: int)
    requires Inv(s) && op.JoinSubscriber? && Joins(s, op, T, q)
    ensures var u, a, before := Step(s, op).0, op.subArgs, Before(s, T);
      && T in u.topics && q in u.topics[T].subs && q !in before.subs && q !in before.pubs
      && var t := u.topics[T];
      && t.subs[q] == Subscriber(JoinCell(s, op).domain, a.pid, a.depth, t.subs[q].latest, a.ignoreLocal, true,
                                 a.isBridge, a.ctx)
      && t.subs - {q} == before.subs && t.entries == before.entries && t.pubs == before.pubs
      && (forall e :: e in t.entries ==> if a.transientLocal then t.subs[q].latest < e.id else e.id < t.subs[q].latest)
      && t.subs[q].latest < t.nextEntry
  {
    hide Inv, AddTopic, Before, CountsOk, RefsOk, Ascending;
    StoreFound(s, JoinCell(s, op), op.topicOk);
    var (s1, found) := AddTopic(s, JoinCell(s, op), op.topicOk);
    var t := s1.topics[found.value];
    assert t.subs[q := NewSubscriber(t, JoinCell(s, op).domain, op.subArgs)] - {q} == t.subs;
  }

  /** Everything in the store that may be delivered to the subscriber. */
  ghost function Deliverables(w: World, t: Topic, q: Subscriber): set<Entry> {
    set e | e in t.entries && Deliverable(w, t, q, e)
  }

  /**
    A transient-local subscriber has the newest `depth` of all deliverable messages due, however old;
    a volatile one has nothing due.
   */
  lemma HistoryDue(s: State, op: Op, T: int, q: int)
    requires Inv(s) && op.JoinSubscriber? && Joins(s, op, T, q)
    ensures var u := Step(s, op).0;
      && T in u.topics && q in u.topics[T].subs
      && var t, w := u.topics[T], WorldOf(u);
      && (forall e :: Pending(w, t, t.subs[q], e) <==>
            op.subArgs.transientLocal && e in Deliverables(w, t, t.subs[q]))
      && Due(w, t, t.subs[q]) ==
           if op.subArgs.transientLocal then Reach(Deliverables(w, t, t.subs[q]), op.subArgs.depth) else {}
  {
    hide Inv, Step, Deliverable, NotOlderThan;
    SubscriberJoinAnswer(s, op, T, q);
    var u := Step(s, op).0;
    var t, w := u.topics[T], WorldOf(u);
    if op.subArgs.transientLocal {
      assert Candidates(w, t, t.subs[q], t.subs[q].latest + 1) == Deliverables(w, t, t.subs[q]);
    } else {
      assert Candidates(w, t, t.subs[q], t.subs[q].latest + 1) == {};
    }
  }

  /** Receiving until nothing more is announced yields exactly what was due. */
  lemma DrainYieldsDue(w: World, t: Topic, q: int)
    requires Consistent(t) && q in t.subs
    ensures Ascending(Drain(w, t, q).0)
    ensures forall e :: e in Drain(w, t, q).0 <==> e in Due(w, t, t.subs[q])
  {
    hide Consistent, Newest, Reach, Candidates;
    DrainYieldsWindow(w, t, q);
    StoreAscending(t);
    NewestIsReach(w, t, t.subs[q], t.subs[q].latest + 1);
  }

  /** A new publisher is what the caller asked for and owns nothing; every subscriber is asked to map it. */
  lemma PublisherJoinAnswer(s: State, op: Op, T: int, p: int)
    requires Inv(s) && op.JoinPublisher? && Joins(s, op, T, p)
    ensures var u, a, before := Step(s, op).0, op.pubArgs, Before(s, T);
      && T in u.topics && p in u.topics[T].pubs && p !in before.subs && p !in before.pubs
      && var t := u.topics[T];
      && t.pubs[p] == Publisher(JoinCell(s, op).domain, a.pid, a.depth, a.isBridge, 0)
      && t.pubs - {p} == before.pubs && t.entries == before.entries && t.subs.Keys == before.subs.Keys
      && (forall q :: q in t.subs ==> t.subs[q] == before.subs[q].(needMmap := true))
  {
    hide Inv, AddTopic, Before, CountsOk, RefsOk, Ascending;
    StoreFound(s, JoinCell(s, op), op.topicOk);
    var (s1, found) := AddTopic(s, JoinCell(s, op), op.topicOk);
    var t := s1.topics[found.value];
    var domain := JoinCell(s, op).domain;
    assert t.pubs[p := Publisher(domain, op.pubArgs.pid, op.pubArgs.depth, op.pubArgs.isBridge, 0)] - {p} == t.pubs;
  }

  /** A join that fails leaves the endpoints and messages of every store as they were. */
  lemma FailedJoinAnswer(s: State, op: Op, T: int)
    requires Inv(s) && (op.JoinSubscriber? || op.JoinPublisher?) && Step(s, op).1.result.Err?
    requires T in Step(s, op).0.topics
    ensures var t, before := Step(s, op).0.topics[T], Before(s, T);
      t.entries == before.entries && t.pubs == before.pubs && t.subs == before.subs
  {
    hide Inv, AddTopic, Before, DoAddProcess, DoCheckBridgeShutdown, DoAddAgent, DoAgentShouldExit, DoCommitExit,
         AddExact, AddPrefix, DoPublish, DoReceive, DoTake, DoRelease, DoLeaveSubscriber, DoLeavePublisher, DoExit;
    ContentsFound(s, JoinCell(s, op), op.topicOk, T);
  }

  lemma ContentsFound(s: State, c: Cell, topicOk: bool, T: int)
    requires Inv(s) && T in AddTopic(s, c, topicOk).0.topics
    ensures var t, before := AddTopic(s, c, topicOk).0.topics[T], Before(s, T);
      t.entries == before.entries && t.pubs == before.pubs && t.subs == before.subs
  {
    hide Inv, Find, Partner;
    FreshName(s);
  }

  /** The store a join through this cell concerns. */
  ghost function StoreJoined(s: State, c: Cell): Topic {
    if c in s.wrappers && s.wrappers[c] in s.topics then s.topics[s.wrappers[c]] else StoreToJoin(s, c)
  }

  /** Why a join fails, in the order in which the reasons are looked for. */
  lemma JoinErrors(s: State, op: Op)
    requires Inv(s) && (op.JoinSubscriber? || op.JoinPublisher?)
    ensures var c, r := JoinCell(s, op), Step(s, op).1;
      var t := StoreJoined(s, c);
      var full := if op.JoinSubscriber? then |t.subs| == 3072 else |t.pubs| == 1024;
      var fault := op.fault.AllocFault? || (op.fault.ReserveFault? && (op.JoinPublisher? || op.subArgs.ctx.Some?));
      && r.Plain?
      && r.result == if c !in s.wrappers && !op.topicOk then Err(ENOMEM) else if full then Err(ENOBUFS)
                     else if t.nextId >= 4096 then Err(ENOSPC) else if fault then Err(ENOMEM) else Ok(t.nextId)
  {
    hide Inv, AddTopic, StoreToJoin, DoAddProcess, DoCheckBridgeShutdown, DoAddAgent, DoAgentShouldExit, DoCommitExit,
         AddExact, AddPrefix, DoPublish, DoReceive, DoTake, DoRelease, DoLeaveSubscriber, DoLeavePublisher, DoExit;
    var c := JoinCell(s, op);
    FreshName(s);
    AddTopicKeeps(s, c, op.topicOk);
    if c in s.wrappers {
      OldCellJoined(s, c, op.topicOk);
    } else if op.topicOk {
      WrapperForJoin(s, c);
    } else {
      NoWrapperMade(s, c);
    }
  }
}
