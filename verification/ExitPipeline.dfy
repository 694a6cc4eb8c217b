// The exit queue and the kernel's tables together: what becomes of every pid that exits.
//
// Exits reach the tables through the worker alone: what it cleans is one process-exit step.

module ExitPipeline {
  import opened Base
  import opened TopicModel
  import opened DomainRules
  import opened Mempools
  import opened KernelModel
  import opened KernelInvariant
  import opened ProcessInvariant
  import Q = ExitQueues

  datatype Event = Ioctl(op: Op) | Queue(act: Q.Action)

  datatype Machine = Machine(queue: Q.Protocol, tables: State)

  ghost predicate MayHappen(m: Machine, e: Event) {
    match e
    case Ioctl(op) => !op.ProcessExit? && Allowed(m.tables, op)
    case Queue(act) => Q.Enabled(m.queue, act)
  }

  ghost function Next(m: Machine, e: Event): Machine
    requires MayHappen(m, e)
  {
    match e
    case Ioctl(op) => m.(tables := Step(m.tables, op).0)
    case Queue(act) =>
      Machine(Q.Act(m.queue, act), if act.Clean? then DoExit(m.tables, m.queue.worker.pid) else m.tables)
  }

  ghost predicate Pipeline(machines: seq<Machine>, events: seq<Event>) {
    && |machines| == |events| + 1
    && machines[0].queue == Q.Start() && Init(machines[0].tables)
    && forall i :: 0 <= i < |events| ==>
         MayHappen(machines[i], events[i]) && machines[i + 1] == Next(machines[i], events[i])
  }

  // ---------- Both parts run as they do alone ----------

  /** The pids of the process-exit steps, in order. */
  function ExitsIn(ops: seq<Op>): seq<int> {
    if ops == [] then []
    else
      var n := |ops| - 1;
      ExitsIn(ops[..n]) + if ops[n].ProcessExit? then [ops[n].pid] else []
  }

  lemma ExitsAppend(ops: seq<Op>, op: Op)
    ensures ExitsIn(ops + [op]) == ExitsIn(ops) + if op.ProcessExit? then [op.pid] else []
  {
    assert (ops + [op])[..|ops|] == ops;
  }

  /** The tables go through a run whose process exits are what the worker has cleaned, in that order. */
  lemma {:induction false} TablesRun(machines: seq<Machine>, events: seq<Event>, n: nat)
      returns (states: seq<State>, ops: seq<Op>)
    requires Pipeline(machines, events) && n <= |events|
    ensures Run(states, ops) && states[|ops|] == machines[n].tables
    ensures ExitsIn(ops) == machines[n].queue.cleaned
  {
    hide Allowed, Step, Init, Run;
    if n == 0 {
      states, ops := [machines[0].tables], [];
      assert Run(states, ops) by { RunStarts(machines[0].tables); }
    } else {
      states, ops := TablesRun(machines, events, n - 1);
      var m, e := machines[n - 1], events[n - 1];
      assert machines[(n - 1) + 1] == Next(m, e);
      if e.Ioctl? || e.act.Clean? {
        var op := if e.Ioctl? then e.op else ProcessExit(m.queue.worker.pid);
        ExitAllowed(m.tables, m.queue.worker);
        RunLength(states, ops);
        RunExtended(states, ops, op, Step(states[|ops|], op).0);
        ExitsAppend(ops, op);
        states, ops := states + [Step(states[|ops|], op).0], ops + [op];
      }
    }
  }

  lemma RunLength(states: seq<State>, ops: seq<Op>)
    requires Run(states, ops)
    ensures |states| == |ops| + 1
  {
  }

  lemma RunStarts(s: State)
    requires Init(s)
    ensures Run([s], [])
  {
  }

  lemma ExitAllowed(s: State, worker: Q.Worker)
    ensures worker.Cleaning? ==>
      Allowed(s, ProcessExit(worker.pid)) && Step(s, ProcessExit(worker.pid)).0 == DoExit(s, worker.pid)
  {
  }

  lemma {:induction false} QueueFaithful(machines: seq<Machine>, events: seq<Event>, n: nat)
    requires Pipeline(machines, events) && n <= |events|
    ensures Q.Faithful(machines[n].queue)
  {
    hide Allowed, Step, Init, Q.Faithful, Q.Act, Q.Enabled, DoExit;
    if n == 0 {
      Q.StartFaithful();
    } else {
      QueueFaithful(machines, events, n - 1);
      assert machines[(n - 1) + 1] == Next(machines[n - 1], events[n - 1]);
      if events[n - 1].Queue? {
        Q.ActKeepsFaithful(machines[n - 1].queue, events[n - 1].act);
      }
    }
  }

  // ---------- What becomes of a pid ----------

  /**
    Every accepted pid is cleaned up once and in order: the process exits the tables have seen are the
    accepted pids but those still pending, so once the worker sleeps they are all of them.
   */
  lemma AcceptedExitOnce(machines: seq<Machine>, events: seq<Event>, n: nat) returns (states: seq<State>, ops: seq<Op>)
    requires Pipeline(machines, events) && n <= |events|
    ensures Run(states, ops) && states[|ops|] == machines[n].tables
    ensures var q := machines[n].queue;
      && q.accepted == ExitsIn(ops) + Q.InHand(q.worker) + q.queue.pids
      && (q.worker.Waiting? && !q.queue.flag ==> ExitsIn(ops) == q.accepted)
  {
    hide Run, Allowed, Step, Init;
    states, ops := TablesRun(machines, events, n);
    QueueFaithful(machines, events, n);
    var q := machines[n].queue;
    assert q.cleaned + [] + [] == q.cleaned;
  }

  lemma AcceptedGrow(m: Machine, e: Event)
    requires MayHappen(m, e) && Q.Faithful(m.queue)
    ensures m.queue.accepted <= Next(m, e).queue.accepted && m.queue.cleaned <= Next(m, e).queue.cleaned
    ensures |m.queue.cleaned| <= |m.queue.accepted|
    ensures e.Queue? && e.act.Clean? ==>
      && |m.queue.cleaned| < |m.queue.accepted|
      && m.queue.accepted[|m.queue.cleaned|] == m.queue.worker.pid
  {
    hide Step, DoExit, Allowed;
  }

  /** Only its own exit step, or a daemon's deregistration, ends the life of a process. */
  lemma StepSparesLife(s: State, op: Op, pid: int)
    requires Participant(s.procs, pid) && Allowed(s, op) && !(op.ProcessExit? && op.pid == pid)
    ensures Participant(Step(s, op).0.procs, pid) && Step(s, op).0.procs[pid].pool == s.procs[pid].pool
  {
    hide AddTopic, AddSubscriber, AddPublisher, Published, Inserted, WalkRunsOff, Reclaimable, HandedOut, Batch,
         TakeCandidate, Window, Sweep, HasDomainEndpoint, MappedInto, PoolsToMap, Unmappable, FirstFree, Assign, Free,
         ExitTopics, InUse, Referred, HasDaemon, HasManager, HasAgent, ProcessesOf, ProcessesIn, AliveIn, Release,
         AddExact, AddPrefix;
    if op.JoinSubscriber? {
      AddTopicElsewhere(s, Cell(op.ns, op.name, DomainOf(s.procs, op.subArgs.pid)), op.topicOk);
    } else if op.JoinPublisher? {
      AddTopicElsewhere(s, Cell(op.ns, op.name, DomainOf(s.procs, op.pubArgs.pid)), op.topicOk);
    }
  }

  lemma EventSparesLife(m: Machine, e: Event, pid: int)
    requires MayHappen(m, e) && Participant(m.tables.procs, pid)
    requires !(e.Queue? && e.act.Clean? && m.queue.worker.pid == pid)
    ensures Participant(Next(m, e).tables.procs, pid)
    ensures Next(m, e).tables.procs[pid].pool == m.tables.procs[pid].pool
  {
    hide Step, DoExit, Allowed, Participant;
    if e.Ioctl? {
      StepSparesLife(m.tables, e.op, pid);
    } else if e.act.Clean? {
      ExitAllowed(m.tables, m.queue.worker);
      StepSparesLife(m.tables, ProcessExit(m.queue.worker.pid), pid);
    }
  }

  /**
    A pid the full queue refused is never cleaned up: unless it was pending before or is accepted
    later, its process stays registered as living, and maps the pool it was given, for ever.
   */
  lemma RefusedNeverCleaned(machines: seq<Machine>, events: seq<Event>, i: nat, j: nat, pid: int)
    requires Pipeline(machines, events) && i <= j <= |events| && Participant(machines[i].tables.procs, pid)
    requires var accepted := machines[j].queue.accepted;
      forall k :: |machines[i].queue.cleaned| <= k < |accepted| ==> accepted[k] != pid
    ensures var s, pool := machines[j].tables, machines[i].tables.procs[pid].pool;
      && Participant(s.procs, pid) && s.procs[pid].pool == pool
      && pool < |s.pools| && pid in s.pools[pool].pids
  {
    hide Run, Inv, Allowed, Step, Init, Q.Faithful, Q.Act;
    LivesOn(machines, events, i, j, pid);
    var states, ops := TablesRun(machines, events, j);
    RunLength(states, ops);
    RunKeeps(states, ops, |ops|);
    OwnPoolMapped(machines[j].tables, pid);
  }

  lemma OwnPoolMapped(s: State, pid: int)
    requires Inv(s) && Alive(s.procs, pid)
    ensures s.procs[pid].pool < |s.pools| && pid in s.pools[s.procs[pid].pool].pids
  {
    hide StoresOk, LiveOk, GroupingOk, RulesOk, RegistryOk, PoolsOk, LaidOut;
  }

  lemma {:induction false} LivesOn(machines: seq<Machine>, events: seq<Event>, i: nat, j: nat, pid: int)
    requires Pipeline(machines, events) && i <= j <= |events| && Participant(machines[i].tables.procs, pid)
    requires var accepted := machines[j].queue.accepted;
      forall k :: |machines[i].queue.cleaned| <= k < |accepted| ==> accepted[k] != pid
    ensures Participant(machines[j].tables.procs, pid)
    ensures machines[j].tables.procs[pid].pool == machines[i].tables.procs[pid].pool
  {
    hide Step, DoExit, Allowed, Participant, Init, Q.Faithful, Q.Act, Q.Enabled;
    if i < j {
      var m, e := machines[j - 1], events[j - 1];
      assert machines[(j - 1) + 1] == Next(m, e);
      QueueFaithful(machines, events, j - 1);
      AcceptedGrow(m, e);
      CleanedGrow(machines, events, i, j - 1);
      forall k | |machines[i].queue.cleaned| <= k < |m.queue.accepted| ensures m.queue.accepted[k] != pid {
        assert machines[j].queue.accepted[k] == m.queue.accepted[k];
      }
      LivesOn(machines, events, i, j - 1, pid);
      EventSparesLife(m, e, pid);
    }
  }

  lemma {:induction false} CleanedGrow(machines: seq<Machine>, events: seq<Event>, i: nat, j: nat)
    requires Pipeline(machines, events) && i <= j <= |events|
    ensures machines[i].queue.cleaned <= machines[j].queue.cleaned
    ensures machines[i].queue.accepted <= machines[j].queue.accepted
    ensures |machines[j].queue.cleaned| <= |machines[j].queue.accepted|
  {
    hide Step, DoExit, Allowed, Init, Q.Act, Q.Enabled;
    QueueFaithful(machines, events, j);
    if i < j {
      CleanedGrow(machines, events, i, j - 1);
      QueueFaithful(machines, events, j - 1);
      assert machines[(j - 1) + 1] == Next(machines[j - 1], events[j - 1]);
      AcceptedGrow(machines[j - 1], events[j - 1]);
    }
  }
}
