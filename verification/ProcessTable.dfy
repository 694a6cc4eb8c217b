// The process table and the discovery agents, with the scans that registration and exit decisions use.

module ProcessTables {
  import opened Base
  import opened Sets
  import opened TopicModel
  import opened KernelModel

  class ProcessTable {
    var procs: map<int, Process>
    var agents: set<Agent>

    constructor ()
      ensures procs == map[] && agents == {}
    {
      procs, agents := map[], {};
    }

    method HasAliveUnlinkDaemon(ns: int) returns (found: bool)
      ensures found == HasDaemon(procs, ns)
    {
      var remaining := procs.Keys;
      while remaining != {}
        invariant remaining <= procs.Keys
        invariant forall pid :: pid in procs && pid !in remaining ==> !IsDaemonOf(procs, ns, pid)
        decreases remaining
      {
        var pid := Pick(remaining);
        remaining := remaining - {pid};
        if procs[pid].ns == ns && procs[pid].role == UnlinkDaemon { return true; }
      }
      found := false;
    }

    method HasAliveBridgeManager(ns: int, domain: nat) returns (found: bool)
      ensures found == HasManager(procs, ns, domain)
    {
      var remaining := procs.Keys;
      while remaining != {}
        invariant remaining <= procs.Keys
        invariant forall pid :: pid in procs && pid !in remaining ==> !IsManagerOf(procs, ns, domain, pid)
        decreases remaining
      {
        var pid := Pick(remaining);
        remaining := remaining - {pid};
        var p := procs[pid];
        if p.ns == ns && p.domain == domain && p.role == BridgeManager && !p.exited { return true; }
      }
      found := false;
    }

    method FindDiscoveryAgent(ns: int, domain: nat) returns (found: Option<Agent>)
      ensures found.Some? <==> HasAgent(agents, ns, domain)
      ensures found.Some? ==> found.value in agents && found.value.ns == ns && found.value.domain == domain
    {
      var remaining := agents;
      while remaining != {}
        invariant remaining <= agents
        invariant forall a :: a in agents && a !in remaining ==> !(a.ns == ns && a.domain == domain)
        decreases remaining
      {
        var a := Pick(remaining);
        remaining := remaining - {a};
        if a.ns == ns && a.domain == domain { return Some(a); }
      }
      found := None;
    }

    /** Counts the processes of a namespace without its daemon: of one domain or of all, the living or all. */
    method CountProcesses(ns: int, domain: Option<nat>, aliveOnly: bool) returns (n: nat)
      ensures domain.None? && !aliveOnly ==> n == |ProcessesOf(procs, ns)|
      ensures domain.Some? && !aliveOnly ==> n == |ProcessesIn(procs, ns, domain.value)|
      ensures domain.Some? && aliveOnly ==> n == |AliveIn(procs, ns, domain.value)|
    {
      n := 0;
      ghost var counted: set<int> := {};
      var remaining := procs.Keys;
      while remaining != {}
        invariant remaining <= procs.Keys && n == |counted| && counted !! remaining
        invariant forall pid :: pid in counted <==>
          pid in procs && pid !in remaining && Counts(procs[pid], ns, domain, aliveOnly)
        decreases remaining
      {
        var pid := Pick(remaining);
        remaining := remaining - {pid};
        var p := procs[pid];
        if p.ns != ns || p.role == UnlinkDaemon { continue; }
        if domain.Some? && p.domain != domain.value { continue; }
        if aliveOnly && p.exited { continue; }
        n := n + 1;
        counted := counted + {pid};
      }
      CountedSets(procs, ns, domain, aliveOnly, counted);
    }

    /** Removes the first agent found under the pid; an agent's pid speaks for one (namespace, domain). */
    method RemoveDiscoveryAgentByPid(pid: int)
      requires forall a, b :: a in agents && b in agents && a.pid == b.pid ==> a == b
      modifies this`agents
      ensures agents == WithoutAgent(old(agents), pid)
    {
      var remaining := agents;
      while remaining != {}
        invariant remaining <= agents == old(agents)
        invariant forall a :: a in agents && a !in remaining ==> a.pid != pid
        decreases remaining
      {
        var a := Pick(remaining);
        remaining := remaining - {a};
        if a.pid == pid {
          agents := agents - {a};
          return;
        }
      }
      assert agents == WithoutAgent(agents, pid);
    }

    /** A daemon's entry goes at once; others wait for the daemon to drain them. */
    method MarkExited(pid: int)
      requires pid in procs
      modifies this`procs
      ensures procs == Exited(old(procs), pid)
    {
      if procs[pid].role == UnlinkDaemon {
        procs := procs - {pid};
      } else {
        procs := procs[pid := procs[pid].(exited := true)];
      }
    }

    method AddDiscoveryAgent(pid: int, ns: int, domain: nat, allocOk: bool) returns (r: Result<()>, ownedByCaller: bool)
      requires forall a, b :: a in agents && b in agents && a.ns == b.ns && a.domain == b.domain ==> a == b
      modifies this`agents
      ensures r == if HasAgent(old(agents), ns, domain) || allocOk then Ok(()) else Err(ENOMEM)
      ensures agents ==
        if !HasAgent(old(agents), ns, domain) && allocOk then old(agents) + {Agent(pid, ns, domain)} else old(agents)
      ensures ownedByCaller <==> Agent(pid, ns, domain) in agents
    {
      var existing := FindDiscoveryAgent(ns, domain);
      if existing.Some? { return Ok(()), existing.value.pid == pid; }
      if !allocOk { return Err(ENOMEM), false; }
      agents := agents + {Agent(pid, ns, domain)};
      return Ok(()), true;
    }
  }

  predicate Counts(p: Process, ns: int, domain: Option<nat>, aliveOnly: bool) {
    p.ns == ns && !p.role.UnlinkDaemon? && (domain.Some? ==> p.domain == domain.value) && (aliveOnly ==> !p.exited)
  }

  lemma CountedSets(procs: map<int, Process>, ns: int, domain: Option<nat>, aliveOnly: bool, counted: set<int>)
    requires forall pid :: pid in counted <==> pid in procs && Counts(procs[pid], ns, domain, aliveOnly)
    ensures domain.None? && !aliveOnly ==> counted == ProcessesOf(procs, ns)
    ensures domain.Some? && !aliveOnly ==> counted == ProcessesIn(procs, ns, domain.value)
    ensures domain.Some? && aliveOnly ==> counted == AliveIn(procs, ns, domain.value)
  {
    forall pid
      ensures domain.None? && !aliveOnly ==> (pid in counted <==> pid in ProcessesOf(procs, ns))
      ensures domain.Some? && !aliveOnly ==> (pid in counted <==> pid in ProcessesIn(procs, ns, domain.value))
      ensures domain.Some? && aliveOnly ==> (pid in counted <==> pid in AliveIn(procs, ns, domain.value))
    {
    }
  }
}
