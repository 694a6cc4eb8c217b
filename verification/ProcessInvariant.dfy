// Registration, exit, draining and rule registration keep the kernel invariant; so does every run.

module ProcessInvariant {
  import opened Base
  import opened Seqs
  import opened Sets
  import opened TopicModel
  import opened StoreInvariant
  import opened DomainRules
  import opened Mempools
  import opened KernelModel
  import opened KernelInvariant

  // ---------- Process exit ----------

  lemma ExitedFacts(procs: map<int, Process>, pid: int)
    requires pid in procs
    ensures OnlyDied(procs, Exited(procs, pid), pid)
    ensures forall q :: q != pid ==> (q in procs <==> q in Exited(procs, pid))
    ensures forall q :: q != pid && q in procs ==> Exited(procs, pid)[q] == procs[q]
    ensures pid in Exited(procs, pid) ==>
      Exited(procs, pid)[pid] == procs[pid].(exited := true) && !procs[pid].role.UnlinkDaemon?
  {
  }

  lemma ExitStore(before: map<int, Process>, after: map<int, Process>, t: Topic, pid: int)
    requires Consistent(t) && NoStaleDead(before, t) && EndpointsOk(before, t)
    requires pid in before && after == Exited(before, pid)
    ensures var u := Exit(after, t, pid);
      Consistent(u) && NoStaleDead(after, u) && EndpointsOk(after, u) && Shrinks(t, u)
  {
    hide Consistent, NoStaleDead, Sweep;
    ExitedFacts(before, pid);
    ExitNoStaleDead(before, after, t, pid);
    var gone := SubscribersOf(t, pid);
    var doomed := if gone == {} then PublishersOf(t, pid) else DeadPublishers(after, t);
    SweepKeeps(t, gone, doomed);
    SweepShrinks(t, gone, doomed);
    SweepSubs(t, gone, doomed);
  }

  lemma SweepSubs(t: Topic, gone: set<int>, doomed: set<int>)
    ensures Sweep(t, gone, doomed).subs == t.subs - gone
  {
  }

  lemma ExitTopicsOk(s: State, pid: int)
    requires Inv(s) && pid in s.procs
    ensures var procs := Exited(s.procs, pid); var topics := ExitTopics(procs, s.topics, pid);
      StoresOk(topics) && LiveOk(procs, topics) && forall T :: T in topics ==> Shrinks(s.topics[T], topics[T])
  {
    hide Inv, Consistent, NoStaleDead, EndpointsOk, Shrinks, Exit, Exited;
    forall T | T in s.topics
      ensures var procs := Exited(s.procs, pid); var u := Exit(procs, s.topics[T], pid);
        Consistent(u) && NoStaleDead(procs, u) && EndpointsOk(procs, u) && Shrinks(s.topics[T], u)
    {
      StoreFacts(s, T);
      ExitStore(s.procs, Exited(s.procs, pid), s.topics[T], pid);
    }
  }

  /** Dropping every wrapper without an own-domain endpoint, and recounting, keeps the grouping. */
  lemma SettledGrouping(s: State, topics: map<int, Topic>)
    requires GroupingOk(s.rules, s.wrappers, s.topics, s.nextTopic)
    requires topics.Keys == s.topics.Keys && forall T :: T in topics ==> Shrinks(s.topics[T], topics[T])
    ensures var wrappers := InUse(s.wrappers, topics);
      GroupingOk(s.rules, wrappers, Referred(wrappers, topics), s.nextTopic)
  {
    hide Find, Partner, Homed, HasDomainEndpoint, Shrinks, CellsOf, RefcntsOk;
    var wrappers := InUse(s.wrappers, topics);
    var referred := Referred(wrappers, topics);
    assert PairsOk(s.rules, wrappers);
    forall c | c in wrappers ensures wrappers[c] in referred && referred[wrappers[c]].rule == Find(s.rules, c) {
      InCells(wrappers, c);
      ShrinksKeepsRule(s.topics[wrappers[c]], topics[wrappers[c]]);
    }
    SettledRefcnts(s, topics);
  }

  lemma InCells(wrappers: map<Cell, int>, c: Cell)
    requires c in wrappers
    ensures c in CellsOf(wrappers, wrappers[c]) && CellsOf(wrappers, wrappers[c]) != {}
  {
  }

  lemma SettledRefcnts(s: State, topics: map<int, Topic>)
    requires RefcntsOk(s.wrappers, s.topics, s.nextTopic)
    requires topics.Keys == s.topics.Keys && forall T :: T in topics ==> Shrinks(s.topics[T], topics[T])
    ensures var wrappers := InUse(s.wrappers, topics);
      RefcntsOk(wrappers, Referred(wrappers, topics), s.nextTopic)
  {
    hide Homed, HasDomainEndpoint, Shrinks, CellsOf, InUse;
    var wrappers := InUse(s.wrappers, topics);
    var referred := Referred(wrappers, topics);
    forall T | T in referred ensures Homed(wrappers, T, referred[T]) {
      SettledHomed(s.wrappers, topics, T, s.topics[T], referred[T]);
    }
  }

  lemma SettledHomed(wrappers: map<Cell, int>, topics: map<int, Topic>, T: int, t: Topic, u: Topic)
    requires T in topics && Homed(wrappers, T, t) && Shrinks(t, topics[T])
    requires u.pubs == topics[T].pubs && u.subs == topics[T].subs
    ensures Homed(InUse(wrappers, topics), T, u)
  {
    var used := InUse(wrappers, topics);
    forall p | p in u.pubs ensures exists c :: c in CellsOf(used, T) && c.domain == u.pubs[p].domain {
      var c :| c in CellsOf(wrappers, T) && c.domain == t.pubs[p].domain;
      assert c in CellsOf(used, T);
    }
    forall q | q in u.subs ensures exists c :: c in CellsOf(used, T) && c.domain == u.subs[q].domain {
      var c :| c in CellsOf(wrappers, T) && c.domain == t.subs[q].domain;
      assert c in CellsOf(used, T);
    }
  }

  lemma ReferredStores(procs: map<int, Process>, wrappers: map<Cell, int>, topics: map<int, Topic>)
    requires StoresOk(topics) && LiveOk(procs, topics)
    ensures StoresOk(Referred(wrappers, topics)) && LiveOk(procs, Referred(wrappers, topics))
  {
    hide Consistent, NoStaleDead, EndpointsOk, CellsOf;
    forall T | T in topics
      ensures var u := topics[T].(refcnt := |CellsOf(wrappers, T)|);
        Consistent(u) && NoStaleDead(procs, u) && EndpointsOk(procs, u)
    {
      RefcntIrrelevant(procs, topics[T], |CellsOf(wrappers, T)|);
    }
  }

  /** `pid` stops living and is unmapped everywhere; everybody else goes on as before. */
  lemma DepartureMemory(s: State, procs: map<int, Process>, pid: int)
    requires MemoryOk(s) && !Alive(procs, pid)
    requires forall q :: q != pid ==> (Alive(procs, q) <==> Alive(s.procs, q))
    requires forall q :: Alive(procs, q) ==> procs[q].pool == s.procs[q].pool
    ensures MemoryOk(s.(procs := procs, pools := Free(s.pools, pid)))
  {
    hide PoolOk, Free;
    FreeKeeps(s.pools, pid);
    FreeLength(s.pools, pid);
  }

  lemma ExitMemory(s: State, pid: int)
    requires MemoryOk(s) && pid in s.procs
    ensures MemoryOk(s.(procs := Exited(s.procs, pid), pools := Free(s.pools, pid)))
  {
    hide MemoryOk;
    ExitedFacts(s.procs, pid);
    DepartureMemory(s, Exited(s.procs, pid), pid);
  }

  lemma FreeLength(pools: seq<Pool>, pid: int)
    ensures |Free(pools, pid)| == |pools|
    ensures forall k :: 0 <= k < |pools| ==> Free(pools, pid)[k].addr == pools[k].addr
  {
  }

  /** Every process entry of `after` is one of `before`, at most exited, demoted or left alone. */
  ghost predicate Fewer(before: map<int, Process>, after: map<int, Process>) {
    forall q :: q in after ==>
      && q in before
      && (after[q] == before[q]
          || (!before[q].role.UnlinkDaemon? && after[q] == before[q].(exited := true))
          || (!before[q].role.UnlinkDaemon? && after[q] == before[q].(role := Application)))
  }

  lemma FewerRegistry(before: map<int, Process>, after: map<int, Process>, agents: set<Agent>)
    requires RegistryOk(before, agents) && Fewer(before, after)
    ensures RegistryOk(after, agents)
  {
    forall q, ns ensures IsDaemonOf(after, ns, q) ==> IsDaemonOf(before, ns, q) {}
    forall q, ns, d ensures IsManagerOf(after, ns, d, q) ==> IsManagerOf(before, ns, d, q) {}
  }

  lemma SameLiving(before: map<int, Process>, after: map<int, Process>, pools: seq<Pool>)
    requires OwnersOk(before, pools)
    requires forall q :: Alive(after, q) <==> Alive(before, q)
    requires forall q :: Alive(after, q) ==> after[q].pool == before[q].pool
    ensures OwnersOk(after, pools)
  {
  }

  lemma ExitRegistry(procs: map<int, Process>, agents: set<Agent>, pid: int)
    requires RegistryOk(procs, agents)
    ensures RegistryOk(procs, WithoutAgent(agents, pid))
    ensures pid in procs ==> RegistryOk(Exited(procs, pid), WithoutAgent(agents, pid))
  {
    assert RegistryOk(procs, WithoutAgent(agents, pid));
    if pid in procs {
      ExitedFacts(procs, pid);
      assert Fewer(procs, Exited(procs, pid));
      FewerRegistry(procs, Exited(procs, pid), WithoutAgent(agents, pid));
    }
  }

  lemma ExitKeeps(s: State, pid: int)
    requires Inv(s)
    ensures Inv(DoExit(s, pid))
  {
    hide MemoryOk, RegistryOk, RulesOk, StoresOk, LiveOk, GroupingOk, Exited, ExitTopics, InUse, Referred, Free;
    ExitRegistry(s.procs, s.agents, pid);
    var u := DoExit(s, pid);
    if pid in s.procs {
      var procs := Exited(s.procs, pid);
      var topics := ExitTopics(procs, s.topics, pid);
      ExitTopicsOk(s, pid);
      ExitTopicKeys(procs, s.topics, pid);
      SettledGrouping(s, topics);
      ReferredStores(procs, InUse(s.wrappers, topics), topics);
      ExitMemory(s, pid);
      MemoryElsewhere(s.(procs := procs, pools := Free(s.pools, pid)), u);
    } else {
      MemoryElsewhere(s, u);
    }
  }

  lemma ExitTopicKeys(procs: map<int, Process>, topics: map<int, Topic>, pid: int)
    ensures ExitTopics(procs, topics, pid).Keys == topics.Keys
  {
  }

  // ---------- Registration and draining ----------

  lemma AddProcessKeeps(s: State, pid: int, ns: int, role: Role, domain: nat, allocOk: bool)
    requires Inv(s) && Allowed(s, AddProcess(pid, ns, role, domain, allocOk))
    ensures Inv(DoAddProcess(s, pid, ns, role, domain, allocOk).0)
  {
    hide StoresOk, GroupingOk, RulesOk, LiveOk, MemoryOk, RegistryOk, FirstFree, Assign, HasDaemon, HasManager,
         HasAgent;
    var u := DoAddProcess(s, pid, ns, role, domain, allocOk).0;
    if u.procs != s.procs {
      NewProcessLive(s, u.procs, pid);
      NewProcessMemory(s, u, pid);
      NewProcessRegistry(s, pid, ns, role, domain, u.procs[pid]);
    }
  }

  lemma NewProcessLive(s: State, procs: map<int, Process>, pid: int)
    requires LiveOk(s.procs, s.topics) && pid !in s.procs && pid in procs && procs == s.procs[pid := procs[pid]]
    requires forall T, p :: T in s.topics && p in s.topics[T].pubs ==> s.topics[T].pubs[p].pid != pid
    ensures LiveOk(procs, s.topics)
  {
    forall T | T in s.topics ensures EndpointsOk(procs, s.topics[T]) && NoStaleDead(procs, s.topics[T]) {
      StrangerIrrelevant(s.procs, procs, s.topics[T], pid);
    }
  }

  /** A store does not depend on what the process table says about a pid that none of its endpoints carries. */
  lemma StrangerIrrelevant(before: map<int, Process>, after: map<int, Process>, t: Topic, pid: int)
    requires EndpointsOk(before, t) && NoStaleDead(before, t)
    requires forall p :: p in t.pubs ==> t.pubs[p].pid != pid
    requires forall q :: q in t.subs ==> t.subs[q].pid != pid
    requires forall a :: a != pid ==> (a in before <==> a in after) && (a in before ==> after[a] == before[a])
    ensures EndpointsOk(after, t) && NoStaleDead(after, t)
  {
    forall p | p in t.pubs ensures Dead(after, t.pubs[p].pid) == Dead(before, t.pubs[p].pid) {
      assert t.pubs[p].pid in before <==> t.pubs[p].pid in after;
    }
    SameDead(before, after, t);
  }

  lemma SameDead(before: map<int, Process>, after: map<int, Process>, t: Topic)
    requires NoStaleDead(before, t)
    requires forall p :: p in t.pubs ==> Dead(after, t.pubs[p].pid) == Dead(before, t.pubs[p].pid)
    ensures NoStaleDead(after, t)
  {
    assert forall p :: p in DeadPublishers(after, t) <==> p in DeadPublishers(before, t);
    assert DeadPublishers(after, t) == DeadPublishers(before, t);
  }

  lemma NewProcessMemory(s: State, u: State, pid: int)
    requires MemoryOk(s) && pid !in s.procs && FirstFree(s.pools) < |s.pools|
    requires pid in u.procs && u.procs == s.procs[pid := u.procs[pid]] && !u.procs[pid].exited
    requires u.procs[pid].pool == FirstFree(s.pools) && u.pools == Assign(s.pools, pid)
    requires u.poolStart == s.poolStart && u.poolSize == s.poolSize
    ensures MemoryOk(u)
  {
    hide PoolOk, FirstFree, Assign;
    AssignKeeps(s.pools, pid);
    AssignLayout(s.pools, pid);
    assert PoolsOk(u.pools);
    assert LaidOut(u.pools, u.poolStart, u.poolSize);
    forall q ensures Alive(u.procs, q) <==> q == pid || Alive(s.procs, q) {}
    forall q | Alive(s.procs, q) ensures s.procs[q].pool != FirstFree(s.pools) && u.procs[q] == s.procs[q] {}
    assert OwnersOk(u.procs, u.pools);
  }

  lemma AssignLayout(pools: seq<Pool>, pid: int)
    ensures |Assign(pools, pid)| == |pools|
    ensures forall k :: 0 <= k < |pools| ==> Assign(pools, pid)[k].addr == pools[k].addr
    ensures forall k :: 0 <= k < |pools| && k != FirstFree(pools) ==> Assign(pools, pid)[k] == pools[k]
  {
  }

  lemma NewProcessRegistry(s: State, pid: int, ns: int, role: Role, domain: nat, p: Process)
    requires RegistryOk(s.procs, s.agents) && pid !in s.procs
    requires p.role == role && p.ns == ns && !p.exited && (!role.UnlinkDaemon? ==> p.domain == domain)
    requires role.BridgeManager? ==> !HasManager(s.procs, ns, domain)
    requires role.UnlinkDaemon? ==> !HasDaemon(s.procs, ns)
    ensures RegistryOk(s.procs[pid := p], s.agents)
  {
    var after := s.procs[pid := p];
    forall q, n | q != pid ensures IsDaemonOf(after, n, q) <==> IsDaemonOf(s.procs, n, q) {}
    forall q, n, d | q != pid ensures IsManagerOf(after, n, d, q) <==> IsManagerOf(s.procs, n, d, q) {}
    forall q, n | IsDaemonOf(after, n, q) && IsDaemonOf(after, n, pid) ensures q == pid {}
    forall q, n, d | IsManagerOf(after, n, d, q) && IsManagerOf(after, n, d, pid) ensures q == pid {}
  }

  lemma DemotedKeeps(s: State, pid: int)
    requires Inv(s) && (pid in s.procs ==> !s.procs[pid].role.UnlinkDaemon?)
    ensures Inv(s.(procs := Demoted(s.procs, pid)))
  {
    hide StoresOk, GroupingOk, RulesOk, PoolsOk, LaidOut, OwnersOk, RegistryOk, EndpointsOk, NoStaleDead;
    var procs := Demoted(s.procs, pid);
    FewerRegistry(s.procs, procs, s.agents);
    SameLiving(s.procs, procs, s.pools);
    forall T | T in s.topics ensures EndpointsOk(procs, s.topics[T]) && NoStaleDead(procs, s.topics[T]) {
      DemotedStore(s.procs, pid, s.topics[T]);
    }
  }

  lemma DemotedStore(procs: map<int, Process>, pid: int, t: Topic)
    requires EndpointsOk(procs, t) && NoStaleDead(procs, t) && (pid in procs ==> !procs[pid].role.UnlinkDaemon?)
    ensures EndpointsOk(Demoted(procs, pid), t) && NoStaleDead(Demoted(procs, pid), t)
  {
    SameDead(procs, Demoted(procs, pid), t);
  }

  lemma CommitKeeps(s: State, ns: int, g: int, caller: int)
    requires Inv(s) && Allowed(s, CommitExit(ns, g, caller))
    ensures Inv(DoCommitExit(s, ns, g, caller).0)
  {
    hide StoresOk, GroupingOk, RulesOk, LiveOk, MemoryOk, RegistryOk, ProcessesOf, Free;
    var u := DoCommitExit(s, ns, g, caller).0;
    if u.pools == s.pools && g >= 0 {
      DrainKeeps(s, g);
    } else {
      if g < 0 && caller in s.procs && s.procs[caller].role.UnlinkDaemon? {
        DeregisterKeeps(s, caller);
      }
    }
  }

  /** Draining an exited process: nothing of it but dead publishers is left, and these stay dead. */
  lemma DrainKeeps(s: State, g: int)
    requires Inv(s) && (g in s.procs ==> s.procs[g].exited)
    ensures Inv(s.(procs := s.procs - {g}))
  {
    hide StoresOk, GroupingOk, RulesOk, PoolsOk, LaidOut, OwnersOk, RegistryOk, EndpointsOk, NoStaleDead;
    var procs := s.procs - {g};
    FewerRegistry(s.procs, procs, s.agents);
    SameLiving(s.procs, procs, s.pools);
    forall T | T in s.topics ensures EndpointsOk(procs, s.topics[T]) && NoStaleDead(procs, s.topics[T]) {
      DrainedStore(s.procs, g, s.topics[T]);
    }
  }

  lemma DrainedStore(procs: map<int, Process>, g: int, t: Topic)
    requires EndpointsOk(procs, t) && NoStaleDead(procs, t) && (g in procs ==> procs[g].exited)
    ensures EndpointsOk(procs - {g}, t) && NoStaleDead(procs - {g}, t)
  {
    SameDead(procs, procs - {g}, t);
  }

  /** A daemon that deregisters leaves no endpoint and frees its pool. */
  lemma DeregisterKeeps(s: State, d: int)
    requires Inv(s) && d in s.procs && s.procs[d].role.UnlinkDaemon?
    ensures Inv(s.(procs := s.procs - {d}, pools := Free(s.pools, d)))
  {
    hide StoresOk, GroupingOk, RulesOk, RegistryOk, MemoryOk, Free;
    var procs := s.procs - {d};
    FewerRegistry(s.procs, procs, s.agents);
    DepartureMemory(s, procs, d);
    forall T | T in s.topics ensures EndpointsOk(procs, s.topics[T]) && NoStaleDead(procs, s.topics[T]) {
      StrangerIrrelevant(s.procs, procs, s.topics[T], d);
    }
  }

  // ---------- Agents ----------

  lemma AddAgentKeeps(s: State, pid: int, ns: int, domain: nat, allocOk: bool)
    requires Inv(s) && Allowed(s, AddAgent(pid, ns, domain, allocOk))
    ensures Inv(DoAddAgent(s, pid, ns, domain, allocOk).0)
  {
    hide StoresOk, GroupingOk, RulesOk, LiveOk, MemoryOk;
    var u := DoAddAgent(s, pid, ns, domain, allocOk).0;
    MemoryElsewhere(s, u);
    assert RegistryOk(u.procs, u.agents);
  }

  lemma AgentShouldExitKeeps(s: State, pid: int, ns: int, domain: nat, commit: bool)
    requires Inv(s)
    ensures Inv(DoAgentShouldExit(s, pid, ns, domain, commit).0)
  {
    hide StoresOk, GroupingOk, RulesOk, LiveOk, MemoryOk, AliveIn, RegistryOk;
    var u := DoAgentShouldExit(s, pid, ns, domain, commit).0;
    MemoryElsewhere(s, u);
    ExitRegistry(s.procs, s.agents, pid);
  }

  // ---------- Rules ----------

  lemma RegistrationKeeps(s: State, after: map<int, Rule>)
    requires Inv(s) && RegistrationSafe(s.rules, after, s.wrappers.Keys)
    requires forall i :: i in after ==> i <= s.nextRule
    ensures Inv(s.(rules := after, nextRule := s.nextRule + 1))
  {
    hide StoresOk, LiveOk, MemoryOk, RegistryOk, RefcntsOk, Find, Partner;
    var u := s.(rules := after, nextRule := s.nextRule + 1);
    MemoryElsewhere(s, u);
    forall c | c in s.wrappers ensures Partner(after, c) == Partner(s.rules, c) && Find(after, c) == Find(s.rules, c) {
      SameRuleSamePartner(s.rules, after, s.wrappers.Keys, c);
    }
  }

  lemma SameRuleSamePartner(rules: map<int, Rule>, after: map<int, Rule>, occupied: set<Cell>, c: Cell)
    requires Disjoint(rules) && RegistrationSafe(rules, after, occupied) && c in occupied
    ensures Partner(after, c) == Partner(rules, c) && Find(after, c) == Find(rules, c)
  {
    hide Find;
    if Find(rules, c).Some? {
      FindIs(rules, c, Find(rules, c).value);
    }
  }

  lemma AddBridgeKeeps(s: State, op: Op)
    requires Inv(s) && (op.AddBridge? || op.AddBridgePrefix?)
    ensures Inv(Step(s, op).0)
  {
    hide Inv, AddExact, AddPrefix, RegistrationSafe;
    assert RulesOk(s.rules, s.nextRule) by { RulesFacts(s); }
    match op {
      case AddBridge(ns, nf, nt, f, t, ok) =>
        AddExactSafe(s.rules, s.wrappers.Keys, s.nextRule, ns, nf, nt, f, t, ok);
        RuleIds(s.rules, s.nextRule, AddExact(s.rules, s.wrappers.Keys, s.nextRule, ns, nf, nt, f, t, ok).0) by {
          AddExactIds(s.rules, s.wrappers.Keys, s.nextRule, ns, nf, nt, f, t, ok);
        }
        RegistrationKeeps(s, AddExact(s.rules, s.wrappers.Keys, s.nextRule, ns, nf, nt, f, t, ok).0);
      case AddBridgePrefix(ns, p, f, t, ok) =>
        AddPrefixSafe(s.rules, s.wrappers.Keys, s.nextRule, ns, p, f, t, ok);
        RuleIds(s.rules, s.nextRule, AddPrefix(s.rules, s.wrappers.Keys, s.nextRule, ns, p, f, t, ok).0) by {
          AddPrefixIds(s.rules, s.wrappers.Keys, s.nextRule, ns, p, f, t, ok);
        }
        RegistrationKeeps(s, AddPrefix(s.rules, s.wrappers.Keys, s.nextRule, ns, p, f, t, ok).0);
    }
  }

  lemma RulesFacts(s: State)
    requires Inv(s)
    ensures RulesOk(s.rules, s.nextRule)
  {
  }

  lemma RuleIds(rules: map<int, Rule>, next: int, after: map<int, Rule>)
    requires (forall i :: i in rules ==> i < next) && after.Keys <= rules.Keys + {next}
    ensures forall i :: i in after ==> i <= next
  {
  }

  lemma AddExactIds(rules: map<int, Rule>, occupied: set<Cell>, next: int, ns: int,
                    nameFrom: string, nameTo: string, from: nat, to: nat, allocOk: bool)
    ensures AddExact(rules, occupied, next, ns, nameFrom, nameTo, from, to, allocOk).0.Keys <= rules.Keys + {next}
  {
    hide Find;
  }

  lemma AddPrefixIds(rules: map<int, Rule>, occupied: set<Cell>, next: int, ns: int,
                     prefix: string, from: nat, to: nat, allocOk: bool)
    ensures AddPrefix(rules, occupied, next, ns, prefix, from, to, allocOk).0.Keys <= rules.Keys + {next}
  {
  }

  // ---------- Every step, every run ----------

  lemma StepKeeps(s: State, op: Op)
    requires Inv(s) && Allowed(s, op)
    ensures Inv(Step(s, op).0)
  {
    hide Inv, DoAddProcess, DoCheckBridgeShutdown, DoAddAgent, DoAgentShouldExit, DoCommitExit, AddExact, AddPrefix,
         DoJoinSubscriber, DoJoinPublisher, DoPublish, DoReceive, DoTake, DoRelease, DoLeaveSubscriber,
         DoLeavePublisher, DoExit;
    match op {
      case AddProcess(pid, ns, role, domain, ok) => AddProcessKeeps(s, pid, ns, role, domain, ok);
      case BridgeShutdown(pid) => DemotedKeeps(s, pid);
      case CheckBridgeShutdown(pid, ns) => DemotedKeeps(s, pid); CheckIs(s, pid, ns);
      case AddAgent(pid, ns, domain, ok) => AddAgentKeeps(s, pid, ns, domain, ok);
      case AgentShouldExit(pid, ns, domain, commit) => AgentShouldExitKeeps(s, pid, ns, domain, commit);
      case CommitExit(ns, g, caller) => CommitKeeps(s, ns, g, caller);
      case AddBridge(_, _, _, _, _, _) => AddBridgeKeeps(s, op);
      case AddBridgePrefix(_, _, _, _, _) => AddBridgeKeeps(s, op);
      case JoinSubscriber(ns, name, a, topicOk, fault) => JoinSubscriberKeeps(s, ns, name, a, topicOk, fault);
      case JoinPublisher(ns, name, a, topicOk, fault) => JoinPublisherKeeps(s, ns, name, a, topicOk, fault);
      case PublishMsg(pid, ns, name, id, addr, ok) => PublishKeeps(s, pid, ns, name, id, addr, ok);
      case ReceiveMsg(pid, ns, name, id, buffers, shm) => ReceiveStepKeeps(s, pid, ns, name, id, buffers, shm);
      case TakeMsg(pid, ns, name, id, same, buffers, shm) => TakeStepKeeps(s, pid, ns, name, id, same, buffers, shm);
      case ReleaseRef(pid, ns, name, id, entry) => ReleaseStepKeeps(s, pid, ns, name, id, entry);
      case LeaveSubscriber(pid, ns, name, id) => LeaveSubscriberKeeps(s, pid, ns, name, id);
      case LeavePublisher(pid, ns, name, id) => LeavePublisherKeeps(s, pid, ns, name, id);
      case ProcessExit(pid) => ExitKeeps(s, pid);
    }
  }

  lemma CheckIs(s: State, pid: int, ns: int)
    ensures DoCheckBridgeShutdown(s, pid, ns).0 == s ||
      DoCheckBridgeShutdown(s, pid, ns).0 == s.(procs := Demoted(s.procs, pid))
  {
  }

  lemma InitHolds(s: State)
    requires Init(s)
    ensures Inv(s)
  {
  }

  /** The invariant holds in every state of every run. */
  lemma {:induction false} RunKeeps(states: seq<State>, ops: seq<Op>, i: nat)
    requires Run(states, ops) && i < |states|
    ensures Inv(states[i])
  {
    hide Inv, Init, Allowed, Step;
    if i == 0 {
      InitHolds(states[0]);
    } else {
      RunKeeps(states, ops, i - 1);
      StepKeeps(states[i - 1], ops[i - 1]);
    }
  }

  /** A run goes on with any allowed step. */
  lemma RunExtended(states: seq<State>, ops: seq<Op>, op: Op, u: State)
    requires Run(states, ops) && Allowed(states[|ops|], op) && Step(states[|ops|], op).0 == u
    ensures Run(states + [u], ops + [op])
  {
    hide Allowed, Step, Init;
    var longer, more := states + [u], ops + [op];
    forall i | 0 <= i < |more| ensures Allowed(longer[i], more[i]) && longer[i + 1] == Step(longer[i], more[i]).0 {
      if i < |ops| {
        assert longer[i] == states[i] && more[i] == ops[i] && longer[i + 1] == states[i + 1];
      }
    }
  }
}
