// What exit cleanup reclaims across tables, and the grouping of wrappers, over every run.

module Reclamation {
  import opened Base
  import opened Seqs
  import opened Sets
  import opened TopicModel
  import opened StoreInvariant
  import opened DomainRules
  import opened Mempools
  import opened KernelModel
  import opened KernelInvariant
  import opened ProcessInvariant

  // ---------- Process exit ----------

  /** Nothing of `pid` is left in a store but publishers whose every message is still held by somebody else. */
  ghost predicate Reclaimed(t: Topic, pid: int) {
    && SubscribersOf(t, pid) == {}
    && (forall e, q :: e in t.entries && q in e.refs ==> q in t.subs && t.subs[q].pid != pid)
    && (forall p :: p in PublishersOf(t, pid) ==> t.pubs[p].entriesNum > 0)
    && (forall e :: e in t.entries && e.publisher in PublishersOf(t, pid) ==> e.refs != {})
  }

  /** After the cleanup of a registered process, every table is free of it. */
  lemma ExitReclaimsEverything(s: State, pid: int)
    requires Inv(s) && pid in s.procs
    ensures var u := DoExit(s, pid);
      && (forall T :: T in u.topics ==> Reclaimed(u.topics[T], pid))
      && (forall k :: 0 <= k < |u.pools| ==> pid !in u.pools[k].pids)
      && (forall a :: a in u.agents ==> a.pid != pid)
      && !Alive(u.procs, pid)
      && (forall c :: c in u.wrappers ==>
           u.wrappers[c] in u.topics && HasDomainEndpoint(u.topics[u.wrappers[c]], c.domain))
  {
    hide Inv, Exit, Exited, HasDomainEndpoint, Free, Reclaimed;
    var u := DoExit(s, pid);
    var procs := Exited(s.procs, pid);
    ExitedFacts(s.procs, pid);
    assert PoolsOk(s.pools) by { PoolsFacts(s); }
    FreeKeeps(s.pools, pid);
    FreeLength(s.pools, pid);
    forall T | T in u.topics ensures Reclaimed(u.topics[T], pid) {
      StoreFacts(s, T);
      StoreReclaimed(s.procs, procs, s.topics[T], pid, u.topics[T].refcnt);
    }
    forall c | c in u.wrappers
      ensures u.wrappers[c] in u.topics && HasDomainEndpoint(u.topics[u.wrappers[c]], c.domain)
    {
      InCells(u.wrappers, c);
      EndpointsDespiteRefcnt(Exit(procs, s.topics[u.wrappers[c]], pid), u.topics[u.wrappers[c]].refcnt, c.domain);
    }
  }

  lemma PoolsFacts(s: State)
    requires Inv(s)
    ensures PoolsOk(s.pools)
  {
  }

  lemma EndpointsDespiteRefcnt(t: Topic, n: nat, domain: nat)
    ensures HasDomainEndpoint(t.(refcnt := n), domain) <==> HasDomainEndpoint(t, domain)
  {
  }

  lemma StoreReclaimed(before: map<int, Process>, after: map<int, Process>, t: Topic, pid: int, n: nat)
    requires Consistent(t) && NoStaleDead(before, t) && EndpointsOk(before, t) && pid in before
    requires after == Exited(before, pid)
    ensures Reclaimed(Exit(after, t, pid).(refcnt := n), pid)
  {
    hide NoStaleDead, Exited, CountsOk, IdsOk, Exit;
    ExitedFacts(before, pid);
    ExitReclaims(before, after, t, pid);
    ExitStore(before, after, t, pid);
    var u := Exit(after, t, pid);
    assert forall e :: e in u.entries ==> HoldersOk(u.subs, e);
    assert forall q :: q in u.subs ==> q !in SubscribersOf(u, pid);
  }

  /** The second visit of a store shared by two wrappers is a no-op. */
  lemma SecondVisitIsNoOp(before: map<int, Process>, t: Topic, pid: int)
    requires Consistent(t) && NoStaleDead(before, t) && pid in before
    ensures var after := Exited(before, pid);
      Exit(after, Exit(after, t, pid), pid) == Exit(after, t, pid)
  {
    hide Consistent, NoStaleDead, Exited, Exit;
    ExitedFacts(before, pid);
    ExitReclaims(before, Exited(before, pid), t, pid);
  }

  /** In every reachable state a dead publisher owns a message, and its store has a subscriber. */
  lemma DeadPublisherOwnsEntries(states: seq<State>, ops: seq<Op>, i: nat, T: int, p: int)
    requires Run(states, ops) && i < |states| && T in states[i].topics && p in states[i].topics[T].pubs
    requires Dead(states[i].procs, states[i].topics[T].pubs[p].pid)
    ensures states[i].topics[T].pubs[p].entriesNum > 0 && states[i].topics[T].subs != map[]
    ensures exists e :: e in states[i].topics[T].entries && e.publisher == p
  {
    hide Run, Inv, EntriesOk, RefsOk, IdsOk, Count;
    RunKeeps(states, ops, i);
    StoreFacts(states[i], T);
    assert p in DeadPublishers(states[i].procs, states[i].topics[T]);
    CountPositive(states[i].topics[T].entries, p);
  }

  // ---------- Grouping ----------

  /** A store has one wrapper, or two: those of a pair of partner cells. */
  lemma OneOrTwoWrappers(s: State, T: int)
    requires Inv(s) && T in s.topics
    ensures 1 <= s.topics[T].refcnt <= 2
    ensures s.topics[T].refcnt == |CellsOf(s.wrappers, T)|
    ensures forall c, d :: c in CellsOf(s.wrappers, T) && d in CellsOf(s.wrappers, T) && c != d ==>
      Partner(s.rules, c) == Some(d)
  {
    hide StoresOk, LiveOk, MemoryOk, RegistryOk, RulesOk, CachedRulesOk, Homed, Partner, Find;
    var cells := CellsOf(s.wrappers, T);
    assert s.topics[T].refcnt == |cells| && cells != {};
    var c := AnyOf(cells);
    forall d, e | d in cells && e in cells && d != c && e != c ensures d == e {
      assert Partner(s.rules, c) == Some(d) && Partner(s.rules, c) == Some(e);
    }
    AtMostTwo(cells, c);
  }

  lemma AtMostTwo(cells: set<Cell>, c: Cell)
    requires c in cells && forall d, e :: d in cells && e in cells && d != c && e != c ==> d == e
    ensures 1 <= |cells| <= 2
  {
    var rest := cells - {c};
    if rest != {} {
      var d := AnyOf(rest);
      assert rest == {d};
    }
    assert cells == rest + {c};
  }

  /** Two wrappers share a store exactly when their cells are partners under the registered rules. */
  lemma SharedIffPartners(states: seq<State>, ops: seq<Op>, i: nat, c: Cell, d: Cell)
    requires Run(states, ops) && i < |states| && c in states[i].wrappers && d in states[i].wrappers && c != d
    ensures states[i].wrappers[c] == states[i].wrappers[d] <==> Partner(states[i].rules, c) == Some(d)
    ensures states[i].wrappers[c] in states[i].topics
    ensures states[i].topics[states[i].wrappers[c]].rule == Find(states[i].rules, c)
  {
    hide Run, StoresOk, LiveOk, MemoryOk, RegistryOk, RulesOk, RefcntsOk, Partner, Find;
    RunKeeps(states, ops, i);
  }

  /** While a cell is occupied, the rule that covers it does not change, direction flags included. */
  lemma OccupiedRuleFrozen(s: State, op: Op, c: Cell)
    requires Inv(s) && c in s.wrappers
    ensures var u := Step(s, op).0;
      && Find(u.rules, c) == Find(s.rules, c)
      && (Find(s.rules, c).Some? ==>
            Find(s.rules, c).value in s.rules && Find(s.rules, c).value in u.rules
            && u.rules[Find(s.rules, c).value] == s.rules[Find(s.rules, c).value])
  {
    hide Inv, AddExact, AddPrefix, Find, DoAddProcess, DoAddAgent, DoAgentShouldExit, DoCommitExit, DoExit;
    RulesFacts(s);
    if Find(s.rules, c).Some? {
      FindIs(s.rules, c, Find(s.rules, c).value);
    }
    if op.AddBridge? {
      AddExactSafe(s.rules, s.wrappers.Keys, s.nextRule, op.ns, op.nameFrom, op.nameTo, op.from, op.to, op.allocOk);
    } else if op.AddBridgePrefix? {
      AddPrefixSafe(s.rules, s.wrappers.Keys, s.nextRule, op.ns, op.prefix, op.from, op.to, op.allocOk);
    } else {
      OtherStepsKeepRules(s, op);
    }
  }

  lemma OtherStepsKeepRules(s: State, op: Op)
    requires !op.AddBridge? && !op.AddBridgePrefix?
    ensures Step(s, op).0.rules == s.rules
  {
    hide AddTopic, AddSubscriber, AddPublisher, Published, Inserted, WalkRunsOff, Reclaimable, HandedOut, Batch,
         TakeCandidate, Window, Sweep, HasDomainEndpoint, MappedInto, PoolsToMap, Unmappable, FirstFree, Assign, Free,
         Exited, ExitTopics, InUse, Referred, HasDaemon, HasManager, HasAgent, ProcessesOf, ProcessesIn, AliveIn,
         Release;
    if op.JoinSubscriber? {
      AddTopicElsewhere(s, Cell(op.ns, op.name, DomainOf(s.procs, op.subArgs.pid)), op.topicOk);
    } else if op.JoinPublisher? {
      AddTopicElsewhere(s, Cell(op.ns, op.name, DomainOf(s.procs, op.pubArgs.pid)), op.topicOk);
    }
  }

  // ---------- What is not kept ----------

  /** Some entry of publisher `p` is held by a subscriber other than `s`. */
  ghost predicate ReadByOthers(t: Topic, p: int, s: int) {
    exists e :: e in t.entries && e.publisher == p && e.refs - {s} != {}
  }

  /** Removing a subscriber keeps exactly the living publishers, and the dead ones that others still read. */
  lemma PublisherOutlivesRemoval(procs: map<int, Process>, t: Topic, s: int, p: int)
    requires Consistent(t) && p in t.pubs
    ensures p in RemoveSubscriber(procs, t, s).pubs <==> !Dead(procs, t.pubs[p].pid) || ReadByOthers(t, p, s)
  {
    hide Filter, Swept, Count, Consistent;
    var doomed := DeadPublishers(procs, t);
    var es := Swept(t.entries, {s}, doomed);
    CountPositive(es, p);
    if p in doomed {
      if e :| e in es && e.publisher == p {
        SweptMember(t.entries, {s}, doomed, e);
        var i :| 0 <= i < |t.entries| && e == t.entries[i].(refs := t.entries[i].refs - {s});
        assert t.entries[i] in t.entries && t.entries[i].publisher == p && t.entries[i].refs - {s} != {};
      }
      if e :| e in t.entries && e.publisher == p && e.refs - {s} != {} {
        var i :| 0 <= i < |t.entries| && e == t.entries[i];
        SweptMember(t.entries, {s}, doomed, e.(refs := e.refs - {s}));
      }
    }
  }

  /** Without subscriber `s` the domain still has a subscriber, or a publisher that lives or is read by others. */
  ghost predicate EndpointsBut(procs: map<int, Process>, t: Topic, s: int, domain: nat) {
    || (exists q :: q in t.subs && q != s && t.subs[q].domain == domain)
    || (exists p :: p in t.pubs && t.pubs[p].domain == domain &&
         (!Dead(procs, t.pubs[p].pid) || ReadByOthers(t, p, s)))
  }

  /** Exactly then a domain keeps an endpoint when the subscriber leaves the store. */
  lemma DomainOutlivesRemoval(procs: map<int, Process>, t: Topic, s: int, domain: nat)
    requires Consistent(t)
    ensures HasDomainEndpoint(RemoveSubscriber(procs, t, s), domain) <==> EndpointsBut(procs, t, s, domain)
  {
    hide Swept, Count, Consistent, ReadByOthers;
    var u := RemoveSubscriber(procs, t, s);
    forall p | p in t.pubs ensures p in u.pubs <==> !Dead(procs, t.pubs[p].pid) || ReadByOthers(t, p, s) {
      PublisherOutlivesRemoval(procs, t, s, p);
    }
    assert forall p :: p in u.pubs ==> p in t.pubs && u.pubs[p].domain == t.pubs[p].domain;
    if p :| p in t.pubs && t.pubs[p].domain == domain && (!Dead(procs, t.pubs[p].pid) || ReadByOthers(t, p, s)) {
      assert p in u.pubs && u.pubs[p].domain == domain;
    }
    if q :| q in t.subs && q != s && t.subs[q].domain == domain {
      assert q in u.subs && u.subs[q].domain == domain;
    }
  }
}
