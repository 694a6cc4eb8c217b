// How many exits can be waiting at once, and when the ring of exited pids can overflow.
//
// The exit hook lets only registered pids through, each process exits once, and a process whose exit
// is waiting makes no further calls.

module QueueBound {
  import opened Base
  import opened Sets
  import opened Seqs
  import opened TopicModel
  import opened DomainRules
  import opened Mempools
  import opened KernelModel
  import opened KernelInvariant
  import opened ProcessInvariant
  import opened ExitPipeline
  import Q = ExitQueues

  // ---------- Orderly exits ----------

  /** The accepted pids that are not cleaned up yet, oldest first. */
  function Waiting(m: Machine): seq<int> {
    Q.InHand(m.queue.worker) + m.queue.queue.pids
  }

  predicate IsAgent(agents: set<Agent>, pid: int) {
    exists a :: a in agents && a.pid == pid
  }

  /** Registered, and not reported as exited. */
  predicate Living(s: State, pid: int) {
    Alive(s.procs, pid) || IsAgent(s.agents, pid)
  }

  predicate Orderly(m: Machine, e: Event) {
    match e
    case Queue(Exit(pid)) => Living(m.tables, pid) && pid !in Waiting(m)
    case Ioctl(AgentShouldExit(pid, _, _, _)) => pid !in Waiting(m)
    case Ioctl(CommitExit(_, _, caller)) => caller !in Waiting(m)
    case _ => true
  }

  ghost predicate OrderlyPipeline(machines: seq<Machine>, events: seq<Event>) {
    && Pipeline(machines, events)
    && forall i :: 0 <= i < |events| ==> Orderly(machines[i], events[i])
  }

  // ---------- Who is waiting ----------

  ghost predicate WaitingOk(m: Machine) {
    Distinct(Waiting(m)) && forall i :: 0 <= i < |Waiting(m)| ==> Living(m.tables, Waiting(m)[i])
  }

  /** A call by somebody else ends no registration of a living process or agent. */
  lemma CallSparesLiving(s: State, op: Op, pid: int)
    requires Allowed(s, op) && !op.ProcessExit? && Living(s, pid)
    requires op.AgentShouldExit? ==> op.pid != pid
    requires op.CommitExit? ==> op.caller != pid
    ensures Living(Step(s, op).0, pid)
  {
    hide AddTopic, AddSubscriber, AddPublisher, Published, Inserted, WalkRunsOff, Reclaimable, HandedOut, Batch,
         TakeCandidate, Window, Sweep, HasDomainEndpoint, MappedInto, PoolsToMap, Unmappable, FirstFree, Assign, Free,
         HasDaemon, HasManager, HasAgent, ProcessesOf, ProcessesIn, AliveIn, Release, AddExact, AddPrefix, DoExit;
    if op.JoinSubscriber? {
      AddTopicElsewhere(s, Cell(op.ns, op.name, DomainOf(s.procs, op.subArgs.pid)), op.topicOk);
    } else if op.JoinPublisher? {
      AddTopicElsewhere(s, Cell(op.ns, op.name, DomainOf(s.procs, op.pubArgs.pid)), op.topicOk);
    }
  }

  lemma ExitSparesLiving(s: State, dead: int, pid: int)
    requires Living(s, pid) && pid != dead
    ensures Living(DoExit(s, dead), pid)
  {
    hide ExitTopics, InUse, Referred, Free;
  }

  lemma DistinctTail(s: seq<int>)
    requires Distinct(s) && s != []
    ensures Distinct(s[1..]) && s[0] !in s[1..]
  {
  }

  lemma DistinctAppend(s: seq<int>, x: int)
    requires Distinct(s) && x !in s
    ensures Distinct(s + [x])
  {
  }

  lemma NextWaiting(m: Machine, e: Event)
    requires MayHappen(m, e)
    ensures Waiting(Next(m, e)) ==
      if e.Queue? && e.act.Exit? && |m.queue.queue.pids| < Q.CAPACITY then Waiting(m) + [e.act.pid]
      else if e.Queue? && e.act.Clean? then Waiting(m)[1..]
      else Waiting(m)
    ensures e.Queue? && e.act.Clean? ==> Waiting(m) != [] && Waiting(m)[0] == m.queue.worker.pid
  {
    hide Step, DoExit, Allowed;
    if e.Queue? && e.act.PollQueue? && m.queue.queue.pids != [] {
      assert m.queue.queue.pids == [m.queue.queue.pids[0]] + m.queue.queue.pids[1..];
    }
  }

  lemma EventKeepsWaiting(m: Machine, e: Event)
    requires WaitingOk(m) && MayHappen(m, e) && Orderly(m, e)
    ensures WaitingOk(Next(m, e))
  {
    hide Step, DoExit, Allowed, Living, Waiting, Distinct, Q.Act, Q.Enabled;
    NextWaiting(m, e);
    var w, u := Waiting(m), Next(m, e);
    if e.Ioctl? {
      forall i | 0 <= i < |w| ensures Living(u.tables, w[i]) {
        CallSparesLiving(m.tables, e.op, w[i]);
      }
    } else if e.act.Exit? {
      DistinctAppend(w, e.act.pid);
    } else if e.act.Clean? {
      DistinctTail(w);
      forall i | 0 <= i < |w| - 1 ensures Living(u.tables, w[1..][i]) {
        assert w[1..][i] in w[1..];
        ExitSparesLiving(m.tables, w[0], w[i + 1]);
      }
    }
  }

  /** Under any orderly interleaving the waiting pids are distinct, and all are registered and living. */
  lemma {:induction false} PipelineKeepsWaiting(machines: seq<Machine>, events: seq<Event>, n: nat)
    requires OrderlyPipeline(machines, events) && n <= |events|
    ensures WaitingOk(machines[n])
  {
    hide Init, MayHappen, Next, Orderly, WaitingOk;
    if n == 0 {
      assert WaitingOk(machines[0]) by { NobodyWaits(machines[0]); }
    } else {
      PipelineKeepsWaiting(machines, events, n - 1);
      assert machines[(n - 1) + 1] == Next(machines[n - 1], events[n - 1]);
      EventKeepsWaiting(machines[n - 1], events[n - 1]);
    }
  }

  lemma NobodyWaits(m: Machine)
    requires m.queue == Q.Start()
    ensures WaitingOk(m)
  {
  }

  // ---------- How many there are ----------

  function AliveSet(procs: map<int, Process>): set<int> {
    set pid | pid in procs && !procs[pid].exited
  }

  function AgentSet(agents: set<Agent>): set<int> {
    set a | a in agents :: a.pid
  }

  lemma {:induction false} AgentSetSize(agents: set<Agent>)
    ensures |AgentSet(agents)| <= |agents|
  {
    if a :| a in agents {
      var rest := agents - {a};
      AgentSetSize(rest);
      assert AgentSet(agents) == AgentSet(rest) + {a.pid};
    }
  }

  function PoolSet(procs: map<int, Process>, pids: set<int>): set<int>
    requires pids <= procs.Keys
  {
    set pid | pid in pids :: procs[pid].pool
  }

  lemma {:induction false} OwnPools(procs: map<int, Process>, pids: set<int>)
    requires pids <= procs.Keys
    requires forall a, b :: a in pids && b in pids && a != b ==> procs[a].pool != procs[b].pool
    ensures |PoolSet(procs, pids)| == |pids|
  {
    if pids != {} {
      var a := AnyOf(pids);
      var rest := pids - {a};
      OwnPools(procs, rest);
      assert PoolSet(procs, pids) == PoolSet(procs, rest) + {procs[a].pool};
    }
  }

  lemma {:induction false} BelowSize(s: set<int>, n: nat)
    requires forall k :: k in s ==> 0 <= k < n
    ensures |s| <= n
  {
    if n == 0 {
      assert forall k :: k !in s;
    } else {
      BelowSize(s - {n - 1}, n - 1);
      assert |s| <= |s - {n - 1}| + 1;
    }
  }

  /** Living processes own distinct pools, so there are no more of them than pools. */
  lemma AliveSize(s: State)
    requires Inv(s)
    ensures |AliveSet(s.procs)| <= |s.pools|
  {
    hide StoresOk, LiveOk, GroupingOk, RulesOk, RegistryOk, PoolsOk, LaidOut;
    assert forall pid :: pid in AliveSet(s.procs) <==> Alive(s.procs, pid);
    OwnPools(s.procs, AliveSet(s.procs));
    BelowSize(PoolSet(s.procs, AliveSet(s.procs)), |s.pools|);
  }

  lemma LivingSize(s: State, pids: seq<int>)
    requires Inv(s) && Distinct(pids) && forall i :: 0 <= i < |pids| ==> Living(s, pids[i])
    ensures |pids| <= |s.pools| + |s.agents|
  {
    hide Inv;
    var these := set x | x in pids;
    var all := AliveSet(s.procs) + AgentSet(s.agents);
    DistinctCardinality(pids);
    AliveSize(s);
    AgentSetSize(s.agents);
    forall x | x in these ensures x in all {
      var i :| 0 <= i < |pids| && pids[i] == x;
      assert Living(s, pids[i]);
    }
    SubsetCardinality(these, all);
  }

  lemma TablesInv(machines: seq<Machine>, events: seq<Event>, n: nat)
    requires Pipeline(machines, events) && n <= |events|
    ensures Inv(machines[n].tables)
  {
    hide Run, Inv, Allowed, Step, Init;
    var states, ops := TablesRun(machines, events, n);
    RunLength(states, ops);
    RunKeeps(states, ops, |ops|);
  }

  /** There are never more exits waiting than pools and agents. */
  lemma WaitingBound(machines: seq<Machine>, events: seq<Event>, n: nat)
    requires OrderlyPipeline(machines, events) && n <= |events|
    ensures |Waiting(machines[n])| <= |machines[n].tables.pools| + |machines[n].tables.agents|
  {
    hide Inv, Init, MayHappen, Next, Orderly, Living, Waiting, Distinct;
    PipelineKeepsWaiting(machines, events, n);
    TablesInv(machines, events, n);
    LivingSize(machines[n].tables, Waiting(machines[n]));
  }

  // ---------- When the ring overflows ----------

  /** Step `n` is an exit that the ring refuses, with `pools` pools and at most `agents` agents registered. */
  ghost predicate RefusesAt(machines: seq<Machine>, events: seq<Event>, n: nat, pools: nat, agents: nat) {
    && OrderlyPipeline(machines, events) && n < |events|
    && events[n].Queue? && events[n].act.Exit?
    && machines[n + 1].queue.refused == machines[n].queue.refused + [events[n].act.pid]
    && |machines[n].tables.pools| == pools && |machines[n].tables.agents| <= agents
  }

  /** A newcomer and those who wait are all living, so a small enough system never fills the ring. */
  lemma RefusalNeedsMany(machines: seq<Machine>, events: seq<Event>, n: nat, pools: nat, agents: nat)
    requires RefusesAt(machines, events, n, pools, agents)
    ensures pools + agents > Q.CAPACITY
  {
    hide Inv, Init, Living, Waiting, Distinct, WaitingOk, Step, DoExit, Allowed, Q.Enabled;
    var m, pid := machines[n], events[n].act.pid;
    assert machines[n + 1] == Next(m, events[n]);
    var everybody := Waiting(m) + [pid];
    PipelineKeepsWaiting(machines, events, n);
    TablesInv(machines, events, n);
    RefusedFull(m, pid);
    assert Orderly(m, events[n]);
    EverybodyLiving(m, pid);
    LivingSize(m.tables, everybody);
  }

  lemma RefusedFull(m: Machine, pid: int)
    requires Q.Act(m.queue, Q.Exit(pid)).refused == m.queue.refused + [pid]
    ensures |Waiting(m)| >= Q.CAPACITY
  {
    assert |m.queue.refused + [pid]| != |m.queue.refused|;
  }

  lemma EverybodyLiving(m: Machine, pid: int)
    requires WaitingOk(m) && Living(m.tables, pid) && pid !in Waiting(m)
    ensures var everybody := Waiting(m) + [pid];
      Distinct(everybody) && forall i :: 0 <= i < |everybody| ==> Living(m.tables, everybody[i])
  {
    hide Living, Waiting, Distinct;
    DistinctAppend(Waiting(m), pid);
  }

  // ---------- A system that fills the ring ----------

  function AgentOf(pools: nat, pid: nat): Agent {
    Agent(pid, 0, Max(0, pid - pools))
  }

  /** With the first `i` pids registered: processes as long as there are pools, then agents. */
  function Crowd(pools: nat, i: nat): State {
    State(map k | 0 <= k < Min(i, pools) :: Process(false, Application, 0, 0, k),
          set k | pools <= k < i :: AgentOf(pools, k),
          map[], 0, map[], map[], 0,
          seq(pools, k => if k < i then Pool(k, 1, [k]) else Pool(k, 0, [])), 0, 1)
  }

  function FirstPids(n: nat): seq<int> {
    seq(n, k => k)
  }

  /** With the first `i` of them waiting, as far as there is room. */
  function Queued(i: nat): Q.Protocol {
    var n := Min(i, Q.CAPACITY);
    Q.Protocol(Q.Fifo(FirstPids(n), n > 0), Q.Waiting, false, FirstPids(n), seq(i - n, k => Q.CAPACITY + k), [])
  }

  function MachineAt(pools: nat, all: nat, i: nat): Machine {
    Machine(Queued(Max(0, i - all)), Crowd(pools, Min(i, all)))
  }

  function EventAt(pools: nat, all: nat, i: nat): Event {
    if i >= all then Queue(Q.Exit(i - all))
    else if i < pools then Ioctl(AddProcess(i, 0, Application, 0, true))
    else Ioctl(AddAgent(i, 0, i - pools, true))
  }

  lemma ProcessArrives(pools: nat, i: nat)
    requires i < pools
    ensures Allowed(Crowd(pools, i), AddProcess(i, 0, Application, 0, true))
    ensures Step(Crowd(pools, i), AddProcess(i, 0, Application, 0, true)).0 == Crowd(pools, i + 1)
  {
    hide HasDaemon, HasManager, HasAgent;
    var s, u := Crowd(pools, i), Crowd(pools, i + 1);
    assert s.pools[i].mappedNum == 0 && FirstFree(s.pools) == i;
    assert [i] + [] == [i];
    assert Assign(s.pools, i) == u.pools;
    assert s.procs[i := Process(false, Application, 0, 0, i)] == u.procs;
    assert s.agents == u.agents;
  }

  lemma AgentArrives(pools: nat, i: nat)
    requires i >= pools
    ensures Allowed(Crowd(pools, i), AddAgent(i, 0, i - pools, true))
    ensures Step(Crowd(pools, i), AddAgent(i, 0, i - pools, true)).0 == Crowd(pools, i + 1)
  {
    var s, u := Crowd(pools, i), Crowd(pools, i + 1);
    assert AgentOf(pools, i) == Agent(i, 0, i - pools);
    assert s.agents + {AgentOf(pools, i)} == u.agents;
    assert s.procs == u.procs && s.pools == u.pools;
  }

  lemma PidWaits(i: nat)
    requires i <= Q.CAPACITY
    ensures Q.Act(Queued(i), Q.Exit(i)) == Queued(i + 1)
    ensures i == Q.CAPACITY ==> Queued(i + 1).refused == Queued(i).refused + [i]
  {
    if i < Q.CAPACITY {
      assert FirstPids(i) + [i] == FirstPids(i + 1);
    }
  }

  lemma EverybodyRegistered(pools: nat, i: nat, k: nat)
    requires k < i
    ensures Living(Crowd(pools, i), k)
  {
    if k >= pools {
      assert AgentOf(pools, k) in Crowd(pools, i).agents && AgentOf(pools, k).pid == k;
    } else {
      assert k < Min(i, pools);
      assert k in Crowd(pools, i).procs;
      assert !Crowd(pools, i).procs[k].exited;
    }
  }

  lemma CrowdStep(pools: nat, all: nat, i: nat)
    requires Q.CAPACITY < all && i <= all + Q.CAPACITY
    ensures var m, e := MachineAt(pools, all, i), EventAt(pools, all, i);
      MayHappen(m, e) && Orderly(m, e) && Next(m, e) == MachineAt(pools, all, i + 1)
  {
    hide Allowed, Step, Living, Crowd, Queued, Q.Act;
    if i >= all {
      PidWaits(i - all);
      EverybodyRegistered(pools, all, i - all);
      assert i - all !in Waiting(MachineAt(pools, all, i)) by { NotYetWaiting(i - all); }
    } else if i < pools {
      ProcessArrives(pools, i);
    } else {
      AgentArrives(pools, i);
    }
  }

  lemma NotYetWaiting(i: nat)
    requires i <= Q.CAPACITY
    ensures i !in Queued(i).queue.pids && Queued(i).worker.Waiting?
  {
  }

  lemma AgentsCounted(pools: nat, i: nat)
    ensures |Crowd(pools, i).agents| == Max(0, i - pools)
    decreases i
  {
    if i <= pools {
      assert Crowd(pools, i).agents == {};
    } else {
      AgentsCounted(pools, i - 1);
      assert Crowd(pools, i).agents == Crowd(pools, i - 1).agents + {AgentOf(pools, i - 1)};
    }
  }

  lemma CrowdRefuses(pools: nat, agents: nat)
    requires pools < U64 && pools + agents > Q.CAPACITY
    ensures exists machines, events, n :: RefusesAt(machines, events, n, pools, agents)
  {
    hide MayHappen, Orderly, Next, Crowd, Queued;
    var all, last := pools + agents, pools + agents + Q.CAPACITY;
    var machines := seq(last + 2, i requires 0 <= i => MachineAt(pools, all, i));
    var events := seq(last + 1, i requires 0 <= i => EventAt(pools, all, i));
    forall i | 0 <= i < |events|
      ensures MayHappen(machines[i], events[i]) && Orderly(machines[i], events[i])
      ensures machines[i + 1] == Next(machines[i], events[i])
    {
      CrowdStep(pools, all, i);
    }
    EmptyCrowd(pools);
    assert OrderlyPipeline(machines, events);
    PidWaits(Q.CAPACITY);
    AgentsCounted(pools, all);
    CrowdPools(pools, all);
    assert RefusesAt(machines, events, last, pools, agents);
  }

  lemma EmptyCrowd(pools: nat)
    requires pools < U64
    ensures Init(Crowd(pools, 0)) && Queued(0) == Q.Start()
  {
  }

  lemma CrowdPools(pools: nat, i: nat)
    ensures |Crowd(pools, i).pools| == pools
  {
  }

  /**
    The ring can refuse an exit exactly when there are more pools and agents than it has room for.
    Pools alone, as many as an int can count, are not what bounds the exits: agents own none.
   */
  lemma OverflowsExactly(pools: nat, agents: nat)
    requires pools < U64
    ensures (exists machines, events, n :: RefusesAt(machines, events, n, pools, agents))
       <==> pools + agents > Q.CAPACITY
  {
    hide RefusesAt;
    if machines, events, n :| RefusesAt(machines, events, n, pools, agents) {
      RefusalNeedsMany(machines, events, n, pools, agents);
    }
    if pools + agents > Q.CAPACITY {
      CrowdRefuses(pools, agents);
    }
  }
}
