// The loop of process-exit cleanup over all topic wrappers, two of which may share one store.

module ExitSweep {
  import opened Base
  import opened Seqs
  import opened Sets
  import opened TopicModel
  import opened StoreInvariant
  import opened DomainRules
  import opened Mempools
  import opened KernelModel
  import opened KernelInvariant
  import opened ProcessInvariant
  import opened Reclamation

  /** The wrappers left after the cells `done` were visited; `exited` are the stores after the exit. */
  function Remaining(wrappers: map<Cell, int>, exited: map<int, Topic>, done: set<Cell>): map<Cell, int> {
    map c | c in wrappers && (c !in done || (wrappers[c] in exited && HasDomainEndpoint(exited[wrappers[c]], c.domain)))
      :: wrappers[c]
  }

  predicate Reached(wrappers: map<Cell, int>, done: set<Cell>, T: int) {
    exists c :: c in done && c in wrappers && wrappers[c] == T
  }

  /** The stores left by then: those with a wrapper, exited once reached, their references recounted. */
  function Midway(wrappers: map<Cell, int>, before: map<int, Topic>, exited: map<int, Topic>, done: set<Cell>)
    : map<int, Topic>
  {
    var kept := Remaining(wrappers, exited, done);
    map T | T in before && T in exited && CellsOf(kept, T) != {} ::
      (if Reached(wrappers, done, T) then exited[T] else before[T]).(refcnt := |CellsOf(kept, T)|)
  }

  ghost predicate Counted(wrappers: map<Cell, int>, topics: map<int, Topic>) {
    && (forall c :: c in wrappers ==> wrappers[c] in topics)
    && (forall T :: T in topics ==> topics[T].refcnt == |CellsOf(wrappers, T)| && CellsOf(wrappers, T) != {})
  }

  lemma NothingVisited(wrappers: map<Cell, int>, before: map<int, Topic>, exited: map<int, Topic>)
    requires Counted(wrappers, before) && exited.Keys == before.Keys
    ensures Remaining(wrappers, exited, {}) == wrappers && Midway(wrappers, before, exited, {}) == before
  {
    hide CellsOf;
    assert Remaining(wrappers, exited, {}) == wrappers;
    assert forall T :: T in before ==> before[T].(refcnt := |CellsOf(wrappers, T)|) == before[T];
    assert Midway(wrappers, before, exited, {}) == before;
  }

  lemma EverythingVisited(wrappers: map<Cell, int>, before: map<int, Topic>, exited: map<int, Topic>)
    requires Counted(wrappers, before) && exited.Keys == before.Keys
    ensures Remaining(wrappers, exited, wrappers.Keys) == InUse(wrappers, exited)
    ensures Midway(wrappers, before, exited, wrappers.Keys) == Referred(InUse(wrappers, exited), exited)
  {
    assert Remaining(wrappers, exited, wrappers.Keys) == InUse(wrappers, exited);
    forall T | T in before ensures Reached(wrappers, wrappers.Keys, T) {
      var c := AnyOf(CellsOf(wrappers, T));
      assert c in wrappers.Keys;
    }
    hide CellsOf, Reached;
    assert Midway(wrappers, before, exited, wrappers.Keys) == Referred(InUse(wrappers, exited), exited);
  }

  // ---------- One visit ----------

  lemma RemainingStep(wrappers: map<Cell, int>, exited: map<int, Topic>, done: set<Cell>, c: Cell)
    requires c in wrappers && c !in done && wrappers[c] in exited
    ensures c in Remaining(wrappers, exited, done)
    ensures Remaining(wrappers, exited, done + {c}) ==
      if HasDomainEndpoint(exited[wrappers[c]], c.domain) then Remaining(wrappers, exited, done)
      else Remaining(wrappers, exited, done) - {c}
  {
  }

  /** The wrapper table and the stores after one visit to a store and the release of its wrapper if due. */
  function Visited(wrappers: map<Cell, int>, topics: map<int, Topic>, c: Cell, u: Topic)
    : (map<Cell, int>, map<int, Topic>)
    requires c in wrappers && wrappers[c] in topics
  {
    var T := wrappers[c];
    if HasDomainEndpoint(u, c.domain) then (wrappers, topics[T := u])
    else if u.refcnt <= 1 then (wrappers - {c}, topics - {T})
    else (wrappers - {c}, topics[T := u.(refcnt := u.refcnt - 1)])
  }

  lemma VisitStep(wrappers: map<Cell, int>, before: map<int, Topic>, exited: map<int, Topic>, done: set<Cell>, c: Cell)
    requires exited.Keys == before.Keys && c in wrappers && c !in done && wrappers[c] in before
    ensures var kept, mid := Remaining(wrappers, exited, done), Midway(wrappers, before, exited, done);
      var T := wrappers[c];
      && c in kept && kept[c] == T && T in mid
      && Visited(kept, mid, c, exited[T].(refcnt := mid[T].refcnt))
         == (Remaining(wrappers, exited, done + {c}), Midway(wrappers, before, exited, done + {c}))
  {
    hide CellsOf, HasDomainEndpoint, Remaining, Reached;
    var kept, mid, T := Remaining(wrappers, exited, done), Midway(wrappers, before, exited, done), wrappers[c];
    RemainingStep(wrappers, exited, done, c);
    assert kept[c] == T by { RemainingValues(wrappers, exited, done); }
    InCells(kept, c);
    var u := exited[T].(refcnt := mid[T].refcnt);
    EndpointsDespiteRefcnt(exited[T], mid[T].refcnt, c.domain);
    ReachedStep(wrappers, done, c);
    var after := Midway(wrappers, before, exited, done + {c});
    if HasDomainEndpoint(u, c.domain) {
      assert after == mid[T := u];
    } else {
      CellsOfRemoved(kept, c);
      if u.refcnt <= 1 {
        NoneLeft(kept, c);
        assert after == mid - {T};
      } else {
        NonEmpty(CellsOf(kept - {c}, T));
        assert after == mid[T := u.(refcnt := u.refcnt - 1)];
      }
    }
  }

  lemma NoneLeft(wrappers: map<Cell, int>, c: Cell)
    requires c in wrappers && |CellsOf(wrappers, wrappers[c])| <= 1
    ensures CellsOf(wrappers - {c}, wrappers[c]) == {}
  {
    LastCell(wrappers, c);
  }

  lemma RemainingValues(wrappers: map<Cell, int>, exited: map<int, Topic>, done: set<Cell>)
    ensures forall c :: c in Remaining(wrappers, exited, done) ==>
      c in wrappers && Remaining(wrappers, exited, done)[c] == wrappers[c]
  {
  }

  lemma ReachedStep(wrappers: map<Cell, int>, done: set<Cell>, c: Cell)
    requires c in wrappers
    ensures forall T :: Reached(wrappers, done + {c}, T) <==> Reached(wrappers, done, T) || T == wrappers[c]
  {
    forall T ensures Reached(wrappers, done + {c}, T) <==> Reached(wrappers, done, T) || T == wrappers[c] {
      if Reached(wrappers, done, T) {
        var d :| d in done && d in wrappers && wrappers[d] == T;
        assert d in done + {c};
      }
      assert c in done + {c};
    }
  }

  // ---------- What the walk of one store does ----------

  lemma ExitIgnoresRefcnt(procs: map<int, Process>, t: Topic, pid: int, n: nat)
    ensures Exit(procs, t.(refcnt := n), pid) == Exit(procs, t, pid).(refcnt := n)
  {
    hide Count, Swept;
    assert SubscribersOf(t.(refcnt := n), pid) == SubscribersOf(t, pid);
    assert DeadPublishers(procs, t.(refcnt := n)) == DeadPublishers(procs, t);
    assert PublishersOf(t.(refcnt := n), pid) == PublishersOf(t, pid);
  }

  /** Whether a store is reached for the first or for the second time, the walk leaves the exited store. */
  lemma VisitExits(s: State, pid: int, done: set<Cell>, T: int)
    requires Inv(s) && pid in s.procs && T in s.topics
    requires var exited := ExitTopics(Exited(s.procs, pid), s.topics, pid);
      T in Midway(s.wrappers, s.topics, exited, done)
    ensures var procs := Exited(s.procs, pid); var exited := ExitTopics(procs, s.topics, pid);
      var t := Midway(s.wrappers, s.topics, exited, done)[T];
      && Exit(procs, t, pid) == exited[T].(refcnt := t.refcnt)
      && OnlyDied(if Reached(s.wrappers, done, T) then procs else s.procs, procs, pid)
      && Consistent(t)
      && NoStaleDead(if Reached(s.wrappers, done, T) then procs else s.procs, t)
  {
    hide Inv, Consistent, NoStaleDead, Exit, Exited, OnlyDied, Reached, CellsOf, Remaining, EndpointsOk;
    var procs := Exited(s.procs, pid);
    var exited := ExitTopics(procs, s.topics, pid);
    var t := Midway(s.wrappers, s.topics, exited, done)[T];
    StoreFacts(s, T);
    ExitedFacts(s.procs, pid);
    NobodyDied(s.procs, procs, pid);
    ExitStore(s.procs, procs, s.topics[T], pid);
    SecondVisitIsNoOp(s.procs, s.topics[T], pid);
    ExitIgnoresRefcnt(procs, s.topics[T], pid, t.refcnt);
    ExitIgnoresRefcnt(procs, exited[T], pid, t.refcnt);
    RefcntIrrelevantHere(s.procs, s.topics[T], t.refcnt);
    RefcntIrrelevantHere(procs, exited[T], t.refcnt);
  }

  lemma RefcntIrrelevantHere(procs: map<int, Process>, t: Topic, n: nat)
    requires Consistent(t) && NoStaleDead(procs, t)
    ensures Consistent(t.(refcnt := n)) && NoStaleDead(procs, t.(refcnt := n))
  {
    hide Count;
  }

  lemma NobodyDied(before: map<int, Process>, procs: map<int, Process>, pid: int)
    requires OnlyDied(before, procs, pid)
    ensures OnlyDied(procs, procs, pid)
  {
  }

  // ---------- What a release in the walk finds ----------

  /** In the middle of the walk, too, every endpoint left on an exited store has a wrapper of its domain. */
  lemma MidwayHomed(s: State, pid: int, done: set<Cell>, T: int)
    requires Inv(s) && pid in s.procs && T in s.topics
    ensures var exited := ExitTopics(Exited(s.procs, pid), s.topics, pid);
      && Homed(Remaining(s.wrappers, exited, done), T, exited[T]) && EntriesOk(exited[T])
  {
    hide Inv, Exited, Exit, EndpointsOk, CountsOk, RefsOk, IdsOk, NoStaleDead;
    var procs := Exited(s.procs, pid);
    var exited := ExitTopics(procs, s.topics, pid);
    StoreFacts(s, T);
    ExitStore(s.procs, procs, s.topics[T], pid);
    OwnDomainRemains(s.wrappers, exited, done, T, s.topics[T]);
  }

  lemma MidwayCounted(wrappers: map<Cell, int>, before: map<int, Topic>, exited: map<int, Topic>, done: set<Cell>,
      T: int)
    requires T in Midway(wrappers, before, exited, done)
    ensures Midway(wrappers, before, exited, done)[T].refcnt == |CellsOf(Remaining(wrappers, exited, done), T)|
  {
    hide CellsOf, Remaining, Reached;
  }

  lemma OwnDomainRemains(wrappers: map<Cell, int>, exited: map<int, Topic>, done: set<Cell>, T: int, t: Topic)
    requires T in exited && Homed(wrappers, T, t) && Shrinks(t, exited[T])
    ensures Homed(Remaining(wrappers, exited, done), T, exited[T])
  {
    var u, kept := exited[T], Remaining(wrappers, exited, done);
    forall p | p in u.pubs ensures exists c :: c in CellsOf(kept, T) && c.domain == u.pubs[p].domain {
      var c :| c in CellsOf(wrappers, T) && c.domain == t.pubs[p].domain;
      assert c in CellsOf(kept, T);
    }
    forall q | q in u.subs ensures exists c :: c in CellsOf(kept, T) && c.domain == u.subs[q].domain {
      var c :| c in CellsOf(wrappers, T) && c.domain == t.subs[q].domain;
      assert c in CellsOf(kept, T);
    }
  }

  /** A store that a visit drops is empty by then, whatever other stores are still unvisited. */
  lemma VisitDropsOnlyEmpty(s: State, pid: int, done: set<Cell>, c: Cell, T: int)
    requires Inv(s) && pid in s.procs && c in s.wrappers && c !in done
    requires var exited := ExitTopics(Exited(s.procs, pid), s.topics, pid);
      && T in Midway(s.wrappers, s.topics, exited, done)
      && T !in Midway(s.wrappers, s.topics, exited, done + {c})
    ensures T == s.wrappers[c] && Vacant(Exit(Exited(s.procs, pid), s.topics[T], pid))
  {
    hide Inv, Exited, Exit, CellsOf, HasDomainEndpoint, Homed, EntriesOk, Vacant, Remaining;
    var exited := ExitTopics(Exited(s.procs, pid), s.topics, pid);
    var kept := Remaining(s.wrappers, exited, done);
    WrappersStored(s);
    RemainingStep(s.wrappers, exited, done, c);
    RemainingValues(s.wrappers, exited, done);
    CellsOfRemoved(kept, c);
    MidwayHomed(s, pid, done, s.wrappers[c]);
    var t := exited[s.wrappers[c]].(refcnt := |CellsOf(kept, s.wrappers[c])|);
    SameHome(kept, s.wrappers[c], exited[s.wrappers[c]], t);
    EmptyCells(CellsOf(kept - {c}, T));
    assert T == s.wrappers[c];
    EndpointsDespiteRefcnt(exited[T], t.refcnt, c.domain);
    LastReleaseFindsNothing(kept, c, t);
    assert Vacant(exited[T]) by { VacantDespiteRefcnt(exited[T], t.refcnt); }
  }

  lemma VacantDespiteRefcnt(t: Topic, n: nat)
    requires Vacant(t.(refcnt := n))
    ensures Vacant(t)
  {
  }

  lemma WrappersStored(s: State)
    requires Inv(s)
    ensures forall c :: c in s.wrappers ==> s.wrappers[c] in s.topics
  {
  }

  lemma EmptyCells(cells: set<Cell>)
    ensures cells == {} <==> |cells| == 0
  {
  }

  lemma SameHome(wrappers: map<Cell, int>, T: int, t: Topic, u: Topic)
    requires u == t.(refcnt := u.refcnt)
    requires Homed(wrappers, T, t) && EntriesOk(t)
    ensures Homed(wrappers, T, u) && EntriesOk(u)
  {
  }

  lemma ExitDropsOnlyEmpty(s: State, pid: int, T: int)
    requires Inv(s) && pid in s.procs && T in s.topics && T !in DoExit(s, pid).topics
    ensures Vacant(Exit(Exited(s.procs, pid), s.topics[T], pid))
  {
    hide Inv, Exited, Exit, HasDomainEndpoint, EntriesOk, Free, Ascending;
    var exited := ExitTopics(Exited(s.procs, pid), s.topics, pid);
    MidwayHomed(s, pid, s.wrappers.Keys, T);
    WrappersCounted(s);
    EverythingVisited(s.wrappers, s.topics, exited);
    hide Homed;
    assert CellsOf(InUse(s.wrappers, exited), T) == {};
    HomelessIsVacant(InUse(s.wrappers, exited), T, exited[T]);
  }

  lemma HomelessIsVacant(wrappers: map<Cell, int>, T: int, t: Topic)
    requires Homed(wrappers, T, t) && CellsOf(wrappers, T) == {} && EntriesOk(t)
    ensures Vacant(t)
  {
    hide CellsOf, Ascending;
    if t.pubs.Keys != {} {
      var p := AnyOf(t.pubs.Keys);
      assert false;
    }
    if t.subs.Keys != {} {
      var q := AnyOf(t.subs.Keys);
      assert false;
    }
    Inhabited(t.entries);
  }

  lemma WrappersCounted(s: State)
    requires Inv(s)
    ensures Counted(s.wrappers, s.topics)
  {
    hide StoresOk, LiveOk, MemoryOk, RegistryOk, RulesOk, PairsOk, Homed, CellsOf, Find;
  }

  /** Whatever the step that drops a store, nothing is left in it when it goes. */
  lemma StoreVanishesEmpty(s: State, op: Op, T: int)
    requires Inv(s) && T in s.topics && T !in Step(s, op).0.topics
    ensures
      || (op.LeaveSubscriber? && Vacant(RemoveSubscriber(s.procs, s.topics[T], op.id)))
      || (op.LeavePublisher? && Vacant(RemovePublisher(s.topics[T], op.id)))
      || (op.ProcessExit? && op.pid in s.procs && Vacant(Exit(Exited(s.procs, op.pid), s.topics[T], op.pid)))
  {
    hide Inv, AddExact, AddPrefix, AddSubscriber, AddPublisher, Published, Inserted, WalkRunsOff, Reclaimable,
         HandedOut, Batch, TakeCandidate, Window, RemoveSubscriber, RemovePublisher, Exit, MappedInto, PoolsToMap,
         Unmappable, FirstFree, Assign, HasDaemon, HasManager, HasAgent, ProcessesOf, ProcessesIn, AliveIn, Release,
         AddTopic, DoExit, Vacant, ReleaseWrapper,
         DoAddProcess, DoCheckBridgeShutdown, DoAddAgent, DoAgentShouldExit, DoCommitExit;
    match op {
      case JoinSubscriber(ns, name, a, topicOk, _) =>
        AddTopicDropsNothing(s, Cell(ns, name, DomainOf(s.procs, a.pid)), topicOk);
      case JoinPublisher(ns, name, a, topicOk, _) =>
        AddTopicDropsNothing(s, Cell(ns, name, DomainOf(s.procs, a.pid)), topicOk);
      case LeaveSubscriber(pid, ns, name, id) =>
        var R := StoreAt(s, pid, ns, name).value;
        SubscriberRemoved(s, R, id);
        LeaveDropsOnlyEmpty(s, R, RemoveSubscriber(s.procs, s.topics[R], id), Cell(ns, name, DomainOf(s.procs, pid)),
            T);
      case LeavePublisher(pid, ns, name, id) =>
        var R := StoreAt(s, pid, ns, name).value;
        PublisherRemoved(s, R, id);
        LeaveDropsOnlyEmpty(s, R, RemovePublisher(s.topics[R], id), Cell(ns, name, DomainOf(s.procs, pid)), T);
      case ProcessExit(pid) =>
        if pid in s.procs {
          ExitDropsOnlyEmpty(s, pid, T);
        } else {
          assert DoExit(s, pid).topics == s.topics by { StrangerExit(s, pid); }
        }
      case PublishMsg(_, _, _, _, _, _) =>
      case ReceiveMsg(_, _, _, _, _, _) =>
      case TakeMsg(_, _, _, _, _, _, _) =>
      case ReleaseRef(_, _, _, _, _) =>
      case _ => AdministrativeStep(s, op);
    }
  }

  lemma StrangerExit(s: State, pid: int)
    requires pid !in s.procs
    ensures DoExit(s, pid).topics == s.topics
  {
  }

  lemma AddTopicDropsNothing(s: State, c: Cell, topicOk: bool)
    ensures s.topics.Keys <= AddTopic(s, c, topicOk).0.topics.Keys
  {
    hide Find, Partner;
  }

  lemma LeaveDropsOnlyEmpty(s: State, R: int, u: Topic, c: Cell, T: int)
    requires R in s.topics && Inv(Put(s, R, u)) && c in s.wrappers && s.wrappers[c] == R
    requires T in s.topics && T !in ReleaseWrapper(Put(s, R, u), c).topics
    ensures T == R && Vacant(u)
  {
    hide Inv, HasDomainEndpoint, CellsOf, Homed, EntriesOk, Vacant;
    ReferencesCounted(Put(s, R, u), R);
    LastReleaseFindsNothing(s.wrappers, c, u);
  }
}
