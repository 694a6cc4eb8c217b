// Daemons, bridge managers and discovery agents: singletons, and nobody left behind.

module Registry {
  import opened Base
  import opened TopicModel
  import opened DomainRules
  import opened Mempools
  import opened KernelModel
  import opened KernelInvariant
  import opened ProcessInvariant

  /** At most one daemon per namespace, one live manager and one agent per (namespace, domain), in every state. */
  lemma Singletons(states: seq<State>, ops: seq<Op>, i: nat)
    requires Run(states, ops) && i < |states|
    ensures forall a, b, ns :: IsDaemonOf(states[i].procs, ns, a) && IsDaemonOf(states[i].procs, ns, b) ==> a == b
    ensures forall a, b, ns, d :: IsManagerOf(states[i].procs, ns, d, a) && IsManagerOf(states[i].procs, ns, d, b) ==>
      a == b
    ensures forall a, b :: a in states[i].agents && b in states[i].agents && a.ns == b.ns && a.domain == b.domain ==>
      a == b
  {
    hide Run, StoresOk, LiveOk, GroupingOk, RulesOk, MemoryOk;
    RunKeeps(states, ops, i);
  }

  /** A live process that is not a daemon, in this namespace and domain. */
  predicate Resident(procs: map<int, Process>, pid: int, ns: int, domain: nat) {
    Participant(procs, pid) && procs[pid].ns == ns && procs[pid].domain == domain
  }

  /** A process keeps its namespace and domain for life, and does not turn into a daemon. */
  lemma ResidentStays(s: State, op: Op, pid: int, ns: int, domain: nat)
    requires Inv(s) && Resident(s.procs, pid, ns, domain) && Alive(Step(s, op).0.procs, pid)
    ensures Resident(Step(s, op).0.procs, pid, ns, domain)
  {
    hide Inv, HasDaemon, HasManager, HasAgent, FirstFree, Assign;
    TablesStep(s, op);
  }

  /** What a step may do to the process table and the agents. */
  lemma TablesStep(s: State, op: Op)
    ensures var u := Step(s, op).0;
      match op
      case AddProcess(pid, ns, role, domain, ok) =>
        u.agents == s.agents && u.procs == DoAddProcess(s, pid, ns, role, domain, ok).0.procs
      case BridgeShutdown(pid) => u.agents == s.agents && u.procs == Demoted(s.procs, pid)
      case CheckBridgeShutdown(pid, ns) =>
        u.agents == s.agents && (u.procs == s.procs || u.procs == Demoted(s.procs, pid))
      case AddAgent(pid, ns, domain, ok) => u.procs == s.procs && s.agents <= u.agents
      case AgentShouldExit(pid, ns, domain, commit) =>
        u.procs == s.procs && u.agents == if commit && AliveIn(s.procs, ns, domain) == {}
            then WithoutAgent(s.agents, pid) else s.agents
      case CommitExit(ns, g, caller) => u.agents == s.agents && u.procs == DoCommitExit(s, ns, g, caller).0.procs
      case ProcessExit(pid) =>
        u.agents == WithoutAgent(s.agents, pid) && u.procs == if pid in s.procs then Exited(s.procs, pid) else s.procs
      case _ => u.procs == s.procs && u.agents == s.agents
  {
    hide AddExact, AddPrefix, AddSubscriber, AddPublisher, Published, Inserted, WalkRunsOff, Reclaimable, HandedOut,
         Batch, TakeCandidate, Window, Sweep, HasDomainEndpoint, MappedInto, PoolsToMap, Unmappable, FirstFree, Assign,
         Free, Exited, ExitTopics, InUse, Referred, HasDaemon, HasManager, ProcessesOf, ProcessesIn, AliveIn, Release,
         AddTopic;
    if op.JoinSubscriber? {
      AddTopicElsewhere(s, Cell(op.ns, op.name, DomainOf(s.procs, op.subArgs.pid)), op.topicOk);
    } else if op.JoinPublisher? {
      AddTopicElsewhere(s, Cell(op.ns, op.name, DomainOf(s.procs, op.pubArgs.pid)), op.topicOk);
    }
  }

  // ---------- No orphan without an agent ----------

  /** The commit of an agent's exit cannot remove the agent while a process of its domain lives. */
  lemma AgentStays(s: State, op: Op, a: Agent, pid: int)
    requires Inv(s) && Allowed(s, op) && a in s.agents && Resident(s.procs, pid, a.ns, a.domain)
    requires op != ProcessExit(a.pid)
    ensures a in Step(s, op).0.agents
  {
    hide Inv;
    TablesStep(s, op);
    if op.AgentShouldExit? && op.pid == a.pid {
      assert pid in AliveIn(s.procs, a.ns, a.domain);
    }
  }

  /**
    A process that was told at registration that its domain has an agent keeps that agent as long as
    it lives and the agent's own process does not exit: the commit of an idle exit never gets through.
   */
  lemma {:induction false} ToldAgentStays(states: seq<State>, ops: seq<Op>, i: nat, j: nat, a: Agent, pid: int)
    requires Run(states, ops) && i < j < |states|
    requires ops[i].AddProcess? && ops[i].pid == pid && !ops[i].role.UnlinkDaemon? && pid !in states[i].procs
    requires a in states[i].agents && a.ns == ops[i].ns && a.domain == ops[i].domain
    requires forall m :: i < m <= j ==> Alive(states[m].procs, pid)
    requires forall m :: i < m < j ==> ops[m] != ProcessExit(a.pid)
    ensures a in states[j].agents && Resident(states[j].procs, pid, a.ns, a.domain)
    ensures Step(states[i], ops[i]).1.Registered? && Step(states[i], ops[i]).1.agentExists
  {
    hide Inv, Init, Allowed, FirstFree, Assign, HasDaemon, HasManager;
    assert Alive(states[j].procs, pid) && states[(j - 1) + 1] == Step(states[j - 1], ops[j - 1]).0;
    if j == i + 1 {
      ToldAboutAgent(states[i], ops[i], a);
    } else {
      ToldAgentStays(states, ops, i, j - 1, a, pid);
      hide Step;
      RunKeeps(states, ops, j - 1);
      AgentStays(states[j - 1], ops[j - 1], a, pid);
      ResidentStays(states[j - 1], ops[j - 1], pid, a.ns, a.domain);
    }
  }

  lemma ToldAboutAgent(s: State, op: Op, a: Agent)
    requires op.AddProcess? && !op.role.UnlinkDaemon? && op.pid !in s.procs
    requires a in s.agents && a.ns == op.ns && a.domain == op.domain
    requires Alive(Step(s, op).0.procs, op.pid)
    ensures Step(s, op).1.Registered? && Step(s, op).1.agentExists
    ensures a in Step(s, op).0.agents && Resident(Step(s, op).0.procs, op.pid, a.ns, a.domain)
  {
    hide FirstFree, Assign, HasDaemon, HasManager;
  }

  // ---------- No orphan without a daemon ----------

  /** A daemon's idle commit cannot deregister it while any other process entry, live or exited, is left. */
  lemma DaemonStays(s: State, op: Op, d: int, ns: int, pid: int)
    requires Inv(s) && Allowed(s, op) && IsDaemonOf(s.procs, ns, d)
    requires pid in ProcessesOf(s.procs, ns) && pid in ProcessesOf(Step(s, op).0.procs, ns)
    requires op != ProcessExit(d)
    ensures IsDaemonOf(Step(s, op).0.procs, ns, d)
  {
    hide StoresOk, LiveOk, GroupingOk, RulesOk, MemoryOk, HasDaemon, HasManager, HasAgent, FirstFree, Assign;
    TablesStep(s, op);
    if op.CommitExit? {
      var procs := if op.globalPid >= 0 then s.procs - {op.globalPid} else s.procs;
      if op.caller == d {
        assert pid in ProcessesOf(procs, ns);
      }
    }
  }

  /** While another entry of its namespace remains, a daemon stays registered until its own process exits. */
  lemma {:induction false} DaemonStaysRegistered(states: seq<State>, ops: seq<Op>, i: nat, j: nat, d: int, ns: int,
      pid: int)
    requires Run(states, ops) && i <= j < |states| && IsDaemonOf(states[i].procs, ns, d)
    requires forall m :: i <= m <= j ==> pid in ProcessesOf(states[m].procs, ns)
    requires forall m :: i <= m < j ==> ops[m] != ProcessExit(d)
    ensures IsDaemonOf(states[j].procs, ns, d)
  {
    hide Inv, Init, Allowed, Step, IsDaemonOf, ProcessesOf;
    if i < j {
      DaemonStaysRegistered(states, ops, i, j - 1, d, ns, pid);
      RunKeeps(states, ops, j - 1);
      assert pid in ProcessesOf(states[j].procs, ns) && states[(j - 1) + 1] == Step(states[j - 1], ops[j - 1]).0;
      DaemonStays(states[j - 1], ops[j - 1], d, ns, pid);
    }
  }

  // ---------- Draining ----------

  /** A process once reported as exited is never live again, short of its pid being registered anew. */
  lemma {:induction false} ReportedStaysDead(states: seq<State>, ops: seq<Op>, i: nat, j: nat, pid: int)
    requires Run(states, ops) && i <= j < |states| && Dead(states[i].procs, pid)
    requires forall m :: i <= m < j ==> !(ops[m].AddProcess? && ops[m].pid == pid)
    ensures Dead(states[j].procs, pid)
  {
    hide Init, Allowed, Step;
    if i < j {
      ReportedStaysDead(states, ops, i, j - 1, pid);
      DeadStays(states[j - 1], ops[j - 1], pid);
    }
  }

  lemma DeadStays(s: State, op: Op, pid: int)
    requires Dead(s.procs, pid) && !(op.AddProcess? && op.pid == pid)
    ensures Dead(Step(s, op).0.procs, pid)
  {
    hide HasDaemon, HasManager, HasAgent, FirstFree, Assign, ProcessesOf;
    TablesStep(s, op);
  }
}
