// What exactly leaves a store with a subscriber, a publisher or a process, and what stays.

module DepartureAnswers {
  import opened Base
  import opened Seqs
  import opened TopicModel
  import opened StoreInvariant
  import opened DomainRules
  import opened Mempools
  import opened KernelModel
  import opened KernelInvariant
  import opened ProcessInvariant

  /** A process that is not registered, or was reported as exited. */
  predicate Gone(procs: map<int, Process>, pid: int) {
    pid !in procs || procs[pid].exited
  }

  /** The message stays unless its publisher is doomed and only departing subscribers hold it. */
  predicate Stays(d: Entry, gone: set<int>, doomed: set<int>) {
    d.publisher !in doomed || !(d.refs <= gone)
  }

  /**
    The subscribers `gone` and their references leave, and so does every message of the publishers
    `doomed` that nobody else holds, and every one of these publishers who then owns none.
   */
  ghost predicate LeavesExactly(t: Topic, u: Topic, gone: set<int>, doomed: set<int>) {
    && u.subs == t.subs - gone
    && (forall e :: e in u.entries <==>
          exists d :: d in t.entries && Stays(d, gone, doomed) && e == d.(refs := d.refs - gone))
    && (forall p :: p in u.pubs <==> p in t.pubs && (p in doomed ==> exists e :: e in u.entries && e.publisher == p))
    && (forall p :: p in u.pubs ==> u.pubs[p] == t.pubs[p].(entriesNum := |OwnedIn(u, p)|))
  }

  function OwnedIn(t: Topic, p: int): set<Entry> {
    set e | e in t.entries && e.publisher == p
  }

  lemma SweepLeavesExactly(t: Topic, gone: set<int>, doomed: set<int>)
    requires Consistent(t)
    ensures LeavesExactly(t, Sweep(t, gone, doomed), gone, doomed)
  {
    hide Swept, Count, Consistent;
    var u := Sweep(t, gone, doomed);
    SweepKeeps(t, gone, doomed);
    forall e ensures e in u.entries <==>
      exists d :: d in t.entries && Stays(d, gone, doomed) && e == d.(refs := d.refs - gone)
    {
      SweptMember(t.entries, gone, doomed, e);
      if i :| 0 <= i < |t.entries| && e == t.entries[i].(refs := t.entries[i].refs - gone) {
        assert t.entries[i] in t.entries;
        NobodyElse(t.entries[i].refs, gone);
      }
      if d :| d in t.entries && Stays(d, gone, doomed) && e == d.(refs := d.refs - gone) {
        NobodyElse(d.refs, gone);
      }
    }
    forall p ensures |OwnedIn(u, p)| == Count(u.entries, p) && (Count(u.entries, p) == 0 <==> OwnedIn(u, p) == {}) {
      OwnedCount(u, p);
    }
    forall p ensures OwnedIn(u, p) != {} <==> exists e :: e in u.entries && e.publisher == p {
      if e :| e in u.entries && e.publisher == p {
        assert e in OwnedIn(u, p);
      }
    }
  }

  lemma NobodyElse(refs: set<int>, gone: set<int>)
    ensures refs - gone == {} <==> refs <= gone
  {
    if refs - gone == {} {
      forall x | x in refs ensures x in gone {
        assert x !in refs - gone;
      }
    }
  }

  lemma OwnedCount(t: Topic, p: int)
    requires Consistent(t)
    ensures |OwnedIn(t, p)| == Count(t.entries, p)
  {
    hide Filter;
    StoreAscending(t);
    var own := Filter(t.entries, OwnedBy(p));
    FilterAscending(t.entries, OwnedBy(p));
    FilterMembers(t.entries, OwnedBy(p));
    assert Distinct(own) by {
      forall i, j | 0 <= i < j < |own| ensures own[i] != own[j] { assert own[i].id < own[j].id; }
    }
    DistinctCardinality(own);
    assert OwnedIn(t, p) == set e | e in own;
  }

  /** Releasing a wrapper changes nothing in a store that stays but its reference count. */
  lemma WrapperAside(s: State, c: Cell, T: int)
    requires c in s.wrappers && s.wrappers[c] in s.topics && T in ReleaseWrapper(s, c).topics
    ensures T in s.topics
    ensures ReleaseWrapper(s, c).topics[T] == s.topics[T].(refcnt := ReleaseWrapper(s, c).topics[T].refcnt)
  {
    hide HasDomainEndpoint;
  }

  lemma LeavesDespiteRefcnt(t: Topic, u: Topic, n: nat, gone: set<int>, doomed: set<int>)
    requires LeavesExactly(t, u, gone, doomed)
    ensures LeavesExactly(t, u.(refcnt := n), gone, doomed)
  {
    assert forall p :: OwnedIn(u.(refcnt := n), p) == OwnedIn(u, p);
  }

  function PublishersGone(procs: map<int, Process>, t: Topic): set<int> {
    set p | p in t.pubs && Gone(procs, t.pubs[p].pid)
  }

  lemma GoneIsDead(procs: map<int, Process>, t: Topic)
    ensures PublishersGone(procs, t) == DeadPublishers(procs, t)
  {
    assert forall p :: p in PublishersGone(procs, t) <==> p in DeadPublishers(procs, t);
  }

  /** A subscriber's removal takes along what the dead publishers of the store then own unheld. */
  lemma SubscriberLeaveAnswer(s: State, op: Op)
    requires Inv(s) && op.LeaveSubscriber?
    ensures var found, u, r := StoreAt(s, op.pid, op.ns, op.name), Step(s, op).0, Step(s, op).1;
      if found.None? then r == Plain(Err(EINVAL)) && u == s
      else if op.id !in s.topics[found.value].subs then r == Plain(Err(ENODATA)) && u == s
      else
        var t := s.topics[found.value];
        r == Plain(Ok(0)) &&
        (found.value in u.topics ==>
          LeavesExactly(t, u.topics[found.value], {op.id}, PublishersGone(s.procs, t))) &&
        (forall T :: T in u.topics && T != found.value ==> T in s.topics && u.topics[T] == s.topics[T])
  {
    hide Inv, Sweep, ReleaseWrapper, LeavesExactly, Consistent, NoStaleDead, EndpointsOk, Homed;
    var found := StoreAt(s, op.pid, op.ns, op.name);
    if found.Some? && op.id in s.topics[found.value].subs {
      var t := s.topics[found.value];
      StoreFacts(s, found.value);
      GoneIsDead(s.procs, t);
      StoreLeft(s, found.value, Cell(op.ns, op.name, DomainOf(s.procs, op.pid)), {op.id},
                DeadPublishers(s.procs, t));
    }
  }

  lemma StoreLeft(s: State, R: int, c: Cell, gone: set<int>, doomed: set<int>)
    requires R in s.topics && c in s.wrappers && s.wrappers[c] == R && Consistent(s.topics[R])
    ensures var u := ReleaseWrapper(Put(s, R, Sweep(s.topics[R], gone, doomed)), c);
      && (R in u.topics ==> LeavesExactly(s.topics[R], u.topics[R], gone, doomed))
      && (forall T :: T in u.topics && T != R ==> T in s.topics && u.topics[T] == s.topics[T])
  {
    hide Consistent, Sweep, LeavesExactly, HasDomainEndpoint;
    var v := Sweep(s.topics[R], gone, doomed);
    SweepLeavesExactly(s.topics[R], gone, doomed);
    LeavesDespiteRefcnt(s.topics[R], v, Max(0, v.refcnt - 1), gone, doomed);
  }

  /** A publisher's removal takes along its own unheld messages, and itself if none is left. */
  lemma PublisherLeaveAnswer(s: State, op: Op)
    requires Inv(s) && op.LeavePublisher?
    ensures var found, u, r := StoreAt(s, op.pid, op.ns, op.name), Step(s, op).0, Step(s, op).1;
      if found.None? then r == Plain(Err(EINVAL)) && u == s
      else if op.id !in s.topics[found.value].pubs then r == Plain(Err(ENODATA)) && u == s
      else
        r == Plain(Ok(0)) &&
        (found.value in u.topics ==> LeavesExactly(s.topics[found.value], u.topics[found.value], {}, {op.id})) &&
        (forall T :: T in u.topics && T != found.value ==> T in s.topics && u.topics[T] == s.topics[T])
  {
    hide Inv, Sweep, ReleaseWrapper, LeavesExactly, Consistent, NoStaleDead, EndpointsOk, Homed;
    var found := StoreAt(s, op.pid, op.ns, op.name);
    if found.Some? && op.id in s.topics[found.value].pubs {
      StoreFacts(s, found.value);
      StoreLeft(s, found.value, Cell(op.ns, op.name, DomainOf(s.procs, op.pid)), {}, {op.id});
    }
  }

  /**
    What the exit of a registered process takes from a store: its subscribers; its publishers' messages
    that nobody else holds; and, where it had a subscriber, those of all dead publishers.
   */
  lemma ExitAnswer(s: State, op: Op, T: int)
    requires Inv(s) && op.ProcessExit? && op.pid in s.procs && T in Step(s, op).0.topics
    ensures T in s.topics
    ensures var t, u := s.topics[T], Step(s, op).0.topics[T];
      var gone := set q | q in t.subs && t.subs[q].pid == op.pid;
      var doomed := set p | p in t.pubs &&
        (t.pubs[p].pid == op.pid || (gone != {} && Gone(s.procs, t.pubs[p].pid)));
      LeavesExactly(t, u, gone, doomed)
  {
    hide Inv, Sweep, LeavesExactly, Consistent, NoStaleDead, EndpointsOk, Homed, Free, InUse, CellsOf, Exited;
    StoreFacts(s, T);
    ExitedFacts(s.procs, op.pid);
    var t, procs := s.topics[T], Exited(s.procs, op.pid);
    var gone := SubscribersOf(t, op.pid);
    var doomed := if gone == {} then PublishersOf(t, op.pid) else DeadPublishers(procs, t);
    assert gone == set q | q in t.subs && t.subs[q].pid == op.pid;
    assert doomed == set p | p in t.pubs &&
      (t.pubs[p].pid == op.pid || (gone != {} && Gone(s.procs, t.pubs[p].pid)));
    SweepLeavesExactly(t, gone, doomed);
    LeavesDespiteRefcnt(t, Sweep(t, gone, doomed), Step(s, op).0.topics[T].refcnt, gone, doomed);
  }

  /**
    What it does to the other tables: a daemon's entry goes, any other is marked as exited; the process's
    agent slot and its mappings go, and nobody else's; an unknown pid loses its agent slot only.
   */
  lemma ExitTablesAnswer(s: State, op: Op)
    requires Inv(s) && op.ProcessExit?
    ensures var u := Step(s, op).0;
      && (forall a :: a in u.agents <==> a in s.agents && a.pid != op.pid)
      && (op.pid !in s.procs ==> u == s.(agents := u.agents))
      && (op.pid in s.procs ==>
           && u.procs == (if s.procs[op.pid].role.UnlinkDaemon? then s.procs - {op.pid}
                          else s.procs[op.pid := s.procs[op.pid].(exited := true)])
           && |u.pools| == |s.pools|
           && forall k, x :: 0 <= k < |s.pools| ==>
                (x in u.pools[k].pids <==> x in s.pools[k].pids && x != op.pid))
  {
    hide StoresOk, LiveOk, GroupingOk, RulesOk, RegistryOk, LaidOut, OwnersOk, ExitTopics, InUse, Referred, Free;
    FreeKeeps(s.pools, op.pid);
    FreeLength(s.pools, op.pid);
  }
}
