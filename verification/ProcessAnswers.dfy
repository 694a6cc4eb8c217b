// What registering processes, managers and agents are told, in terms of who is registered.

module ProcessAnswers {
  import opened Base
  import opened Seqs
  import opened Sets
  import opened TopicModel
  import opened DomainRules
  import opened Mempools
  import opened KernelModel
  import opened KernelInvariant
  import opened ProcessInvariant

  ghost predicate DaemonIn(s: State, ns: int) {
    exists p :: p in s.procs && s.procs[p].ns == ns && s.procs[p].role.UnlinkDaemon?
  }

  ghost predicate LiveManagerIn(s: State, ns: int, domain: nat) {
    exists p :: p in s.procs && !s.procs[p].exited && s.procs[p].ns == ns && s.procs[p].domain == domain
      && s.procs[p].role.BridgeManager?
  }

  ghost predicate AgentIn(s: State, ns: int, domain: nat) {
    exists a :: a in s.agents && a.ns == ns && a.domain == domain
  }

  /** `k` is the first pool that no process maps. */
  predicate FirstUnmapped(pools: seq<Pool>, k: int) {
    0 <= k < |pools| && pools[k].pids == [] && forall i :: 0 <= i < k ==> pools[i].pids != []
  }

  /**
    A registration is refused for a known pid or a missing domain; a second live manager of a domain or
    a second daemon of a namespace is told to stand back; otherwise the process is entered in the role
    and domain it asked for, with the first pool nobody maps. The three flags say who was there before.
   */
  lemma AddProcessAnswer(s: State, op: Op)
    requires Inv(s) && op.AddProcess?
    ensures var u, r := Step(s, op).0, Step(s, op).1;
      var refused := op.pid in s.procs || (!op.role.UnlinkDaemon? && op.domain == 0xFFFF_FFFF);
      var daemon, manager := DaemonIn(s, op.ns), LiveManagerIn(s, op.ns, op.domain);
      var second := (op.role.BridgeManager? && manager) || (op.role.UnlinkDaemon? && daemon);
      && r.Registered?
      && (refused ==> r == Registered(Err(EINVAL), false, false, false))
      && (refused || (r.daemonExists == daemon && r.bridgeExists == manager
                      && r.agentExists == AgentIn(s, op.ns, op.domain)))
      && (!refused && second ==> r.result == Ok(-1))
      && (refused || second ==> u == s)
      && (!refused && !second ==> Enters(s, op, u, r.result))
  {
    hide StoresOk, LiveOk, GroupingOk, RulesOk, RegistryOk, LaidOut, OwnersOk, FirstFree, Assign;
    EntersFirst(s, op);
  }

  /** The process is entered, or for want of memory or of a pool nothing happens. */
  ghost predicate Enters(s: State, op: Op, u: State, result: Result<int>)
    requires op.AddProcess?
  {
    if op.allocOk && exists k :: FirstUnmapped(s.pools, k) then
      && result.Ok? && FirstUnmapped(s.pools, result.value)
      && u.procs == s.procs[op.pid := Process(false, op.role, op.ns,
                              if op.role.UnlinkDaemon? then 0xFFFF_FFFF else op.domain, result.value)]
      && |u.pools| == |s.pools| && u.pools[result.value].pids == [op.pid]
      && (forall i :: 0 <= i < |s.pools| && i != result.value ==> u.pools[i] == s.pools[i])
    else result == Err(ENOMEM) && u == s
  }

  lemma EntersFirst(s: State, op: Op)
    requires PoolsOk(s.pools) && op.AddProcess?
    ensures var k := FirstFree(s.pools);
      && (k < |s.pools| <==> exists i :: FirstUnmapped(s.pools, i))
      && (k < |s.pools| ==> FirstUnmapped(s.pools, k))
      && |Assign(s.pools, op.pid)| == |s.pools|
      && (k < |s.pools| ==> Assign(s.pools, op.pid)[k].pids == [op.pid])
      && (forall i :: 0 <= i < |s.pools| && i != k ==> Assign(s.pools, op.pid)[i] == s.pools[i])
  {
    var k := FirstFree(s.pools);
    AssignKeeps(s.pools, op.pid);
    AssignLayout(s.pools, op.pid);
    forall i | 0 <= i < |s.pools| ensures s.pools[i].mappedNum == 0 <==> s.pools[i].pids == [] {
      assert PoolOk(s.pools[i]);
    }
    if k < |s.pools| {
      assert FirstUnmapped(s.pools, k);
    }
  }

  // ---------- Bridge managers ----------

  /** No other entry of the process's namespace and domain but a daemon's is registered, exited or not. */
  ghost predicate Alone(s: State, pid: int)
    requires pid in s.procs
  {
    forall p :: p in s.procs && p != pid && !s.procs[p].role.UnlinkDaemon? ==>
      s.procs[p].ns != s.procs[pid].ns || s.procs[p].domain != s.procs[pid].domain
  }

  /** A process asking for its own domain is told to shut down, and demoted, exactly when it is alone in it. */
  lemma CheckShutdownAnswer(s: State, op: Op)
    requires op.CheckBridgeShutdown? && op.pid in s.procs && op.ns == s.procs[op.pid].ns
    requires !s.procs[op.pid].role.UnlinkDaemon?
    ensures var u, r := Step(s, op).0, Step(s, op).1;
      && r == Verdict(Alone(s, op.pid))
      && u == if Alone(s, op.pid) then s.(procs := s.procs[op.pid := s.procs[op.pid].(role := Application)]) else s
  {
    var all := ProcessesIn(s.procs, op.ns, DomainOf(s.procs, op.pid));
    assert op.pid in all;
    if Alone(s, op.pid) {
      forall p | p in all ensures p == op.pid {
        assert p in s.procs;
      }
      assert all == {op.pid};
    } else {
      var p :| p in s.procs && p != op.pid && !s.procs[p].role.UnlinkDaemon? && p in all;
      SubsetCardinality({p, op.pid}, all);
    }
  }

  // ---------- Discovery agents ----------

  /** Some process of the namespace and domain, other than a daemon, lives. */
  ghost predicate LivesIn(s: State, ns: int, domain: nat) {
    exists p :: p in s.procs && !s.procs[p].exited && s.procs[p].ns == ns && s.procs[p].domain == domain
      && !s.procs[p].role.UnlinkDaemon?
  }

  /** An agent gets a free slot, and is told that it owns the slot exactly when it is its own. */
  lemma AddAgentAnswer(s: State, op: Op)
    requires op.AddAgent?
    ensures var u, r, mine := Step(s, op).0, Step(s, op).1, Agent(op.pid, op.ns, op.domain);
      if AgentIn(s, op.ns, op.domain) then r == Verdict(mine in s.agents) && u == s
      else if op.allocOk then r == Verdict(true) && u == s.(agents := s.agents + {mine})
      else r == Plain(Err(ENOMEM)) && u == s
  {
  }

  /** An agent should exit exactly when nobody lives in its domain; if it commits to that, it is deregistered. */
  lemma AgentShouldExitAnswer(s: State, op: Op)
    requires op.AgentShouldExit?
    ensures var u, r := Step(s, op).0, Step(s, op).1;
      && r == Verdict(!LivesIn(s, op.ns, op.domain))
      && u == s.(agents := u.agents)
      && (forall a :: a in u.agents <==>
            a in s.agents && !(op.commit && !LivesIn(s, op.ns, op.domain) && a.pid == op.pid))
  {
    var all := AliveIn(s.procs, op.ns, op.domain);
    if LivesIn(s, op.ns, op.domain) {
      var p :| p in s.procs && !s.procs[p].exited && s.procs[p].ns == op.ns && s.procs[p].domain == op.domain &&
        !s.procs[p].role.UnlinkDaemon?;
      assert p in all;
    }
    if all != {} {
      var p := AnyOf(all);
      assert p in s.procs;
    }
  }

  // ---------- Draining ----------

  /** Some entry of the namespace other than a daemon's is left, exited or not. */
  ghost predicate EntryLeft(procs: map<int, Process>, ns: int) {
    exists p :: p in procs && procs[p].ns == ns && !procs[p].role.UnlinkDaemon?
  }

  /**
    A drain removes the entry of the pid and tells whether any other is left. Without a pid to drain, a
    daemon that asks while none is left is deregistered.
   */
  lemma CommitAnswer(s: State, op: Op)
    requires op.CommitExit?
    ensures var u, r := Step(s, op).0, Step(s, op).1;
      var drained := if op.globalPid >= 0 then s.procs - {op.globalPid} else s.procs;
      var idle := !EntryLeft(drained, op.ns);
      var leaves := idle && op.globalPid < 0 && op.caller >= 0 && op.caller in s.procs
        && s.procs[op.caller].role.UnlinkDaemon?;
      && r == Verdict(idle)
      && u.procs == (if leaves then s.procs - {op.caller} else drained)
      && (!leaves ==> u.pools == s.pools)
      && u == s.(procs := u.procs, pools := u.pools)
  {
    var drained := if op.globalPid >= 0 then s.procs - {op.globalPid} else s.procs;
    var all := ProcessesOf(drained, op.ns);
    if p :| p in drained && drained[p].ns == op.ns && !drained[p].role.UnlinkDaemon? {
      assert p in all;
    }
    if all != {} {
      var p := AnyOf(all);
      assert p in drained;
    }
  }
}
