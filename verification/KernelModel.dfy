// The whole kernel module as a transition system: its tables, and one function per ioctl.
//
// Every ioctl runs under global_htables_rwsem, so it is one step. Step follows the code for any
// arguments; Allowed states what the environment promises.

module KernelModel {
  import opened Base
  import opened TopicModel
  import opened DomainRules
  import opened NotifyLists
  import opened Mempools

  const DOMAIN_ID_NONE: nat := 0xFFFF_FFFF

  datatype Agent = Agent(pid: int, ns: int, domain: nat)

  /** Topic stores are named by address; freed addresses are not reused, so an address names one store for ever. */
  datatype State = State(
    procs: map<int, Process>, agents: set<Agent>,
    rules: map<int, Rule>, nextRule: int,
    wrappers: map<Cell, int>, topics: map<int, Topic>, nextTopic: int,
    pools: seq<Pool>, poolStart: int, poolSize: int)

  /** How the mapping stage of a receive goes wrong: it fails after mapping some of the pools. */
  datatype ShmFault = ShmFault(fails: bool, done: set<int>)

  datatype Op =
    | AddProcess(pid: int, ns: int, role: Role, domain: nat, allocOk: bool)
    | BridgeShutdown(pid: int)
    | CheckBridgeShutdown(pid: int, ns: int)
    | AddAgent(pid: int, ns: int, domain: nat, allocOk: bool)
    | AgentShouldExit(pid: int, ns: int, domain: nat, commit: bool)
    | CommitExit(ns: int, globalPid: int, caller: int)
    | AddBridge(ns: int, nameFrom: string, nameTo: string, from: nat, to: nat, allocOk: bool)
    | AddBridgePrefix(ns: int, prefix: string, from: nat, to: nat, allocOk: bool)
    | JoinSubscriber(ns: int, name: string, subArgs: SubArgs, topicOk: bool, fault: Fault)
    | JoinPublisher(ns: int, name: string, pubArgs: PubArgs, topicOk: bool, fault: Fault)
    | PublishMsg(pid: int, ns: int, name: string, id: int, addr: int, allocOk: bool)
    | ReceiveMsg(pid: int, ns: int, name: string, id: int, buffers: nat, shm: ShmFault)
    | TakeMsg(pid: int, ns: int, name: string, id: int, allowSame: bool, buffers: nat, shm: ShmFault)
    | ReleaseRef(pid: int, ns: int, name: string, id: int, entry: int)
    | LeaveSubscriber(pid: int, ns: int, name: string, id: int)
    | LeavePublisher(pid: int, ns: int, name: string, id: int)
    | ProcessExit(pid: int)

  datatype Reply =
    | Plain(result: Result<int>)
    | Registered(result: Result<int>, daemonExists: bool, bridgeExists: bool, agentExists: bool)
    | Verdict(flag: bool)
    | PublishReply(result: Result<int>, released: seq<Entry>, woken: set<int>)
    | DeliveryReply(result: Result<int>, handed: seq<Entry>, callAgain: bool)

  function WorldOf(s: State): World {
    World(s.procs, s.rules)
  }

  // ---------- Processes ----------

  predicate Alive(procs: map<int, Process>, pid: int) {
    pid in procs && !procs[pid].exited
  }

  predicate IsDaemonOf(procs: map<int, Process>, ns: int, pid: int) {
    pid in procs && procs[pid].ns == ns && procs[pid].role.UnlinkDaemon?
  }

  predicate IsManagerOf(procs: map<int, Process>, ns: int, domain: nat, pid: int) {
    && Alive(procs, pid) && procs[pid].ns == ns && procs[pid].domain == domain
    && procs[pid].role.BridgeManager?
  }

  predicate HasDaemon(procs: map<int, Process>, ns: int) {
    exists pid :: pid in procs && IsDaemonOf(procs, ns, pid)
  }

  predicate HasManager(procs: map<int, Process>, ns: int, domain: nat) {
    exists pid :: pid in procs && IsManagerOf(procs, ns, domain, pid)
  }

  predicate HasAgent(agents: set<Agent>, ns: int, domain: nat) {
    exists a :: a in agents && a.ns == ns && a.domain == domain
  }

  /** The registered non-daemon processes of a namespace, exited or not. */
  function ProcessesOf(procs: map<int, Process>, ns: int): set<int> {
    set pid | pid in procs && procs[pid].ns == ns && !procs[pid].role.UnlinkDaemon?
  }

  function ProcessesIn(procs: map<int, Process>, ns: int, domain: nat): set<int> {
    set pid | pid in procs && procs[pid].ns == ns && procs[pid].domain == domain && !procs[pid].role.UnlinkDaemon?
  }

  function AliveIn(procs: map<int, Process>, ns: int, domain: nat): set<int> {
    set pid | pid in ProcessesIn(procs, ns, domain) && !procs[pid].exited
  }

  function DomainOf(procs: map<int, Process>, pid: int): nat {
    if pid in procs then procs[pid].domain else 0
  }

  ghost function DoAddProcess(s: State, pid: int, ns: int, role: Role, domain: nat, allocOk: bool): (State, Reply) {
    var daemon, manager, agent := HasDaemon(s.procs, ns), HasManager(s.procs, ns, domain),
      HasAgent(s.agents, ns, domain);
    var k := FirstFree(s.pools);
    if !role.UnlinkDaemon? && domain == DOMAIN_ID_NONE then (s, Registered(Err(EINVAL), false, false, false))
    else if pid in s.procs then (s, Registered(Err(EINVAL), false, false, false))
    else if (role.BridgeManager? && manager) || (role.UnlinkDaemon? && daemon)
      then (s, Registered(Ok(-1), daemon, manager, agent))
    else if !allocOk || k == |s.pools| then (s, Registered(Err(ENOMEM), daemon, manager, agent))
    else
      (s.(procs := s.procs[pid := Process(false, role, ns, if role.UnlinkDaemon? then DOMAIN_ID_NONE else domain, k)],
          pools := Assign(s.pools, pid)),
       Registered(Ok(k), daemon, manager, agent))
  }

  function Demoted(procs: map<int, Process>, pid: int): map<int, Process> {
    if pid in procs then procs[pid := procs[pid].(role := Application)] else procs
  }

  ghost function DoCheckBridgeShutdown(s: State, pid: int, ns: int): (State, Reply) {
    if |ProcessesIn(s.procs, ns, DomainOf(s.procs, pid))| <= 1
    then (s.(procs := Demoted(s.procs, pid)), Verdict(true))
    else (s, Verdict(false))
  }

  function WithoutAgent(agents: set<Agent>, pid: int): set<Agent> {
    set a | a in agents && a.pid != pid
  }

  ghost function DoAddAgent(s: State, pid: int, ns: int, domain: nat, allocOk: bool): (State, Reply) {
    if HasAgent(s.agents, ns, domain) then (s, Verdict(Agent(pid, ns, domain) in s.agents))
    else if !allocOk then (s, Plain(Err(ENOMEM)))
    else (s.(agents := s.agents + {Agent(pid, ns, domain)}), Verdict(true))
  }

  ghost function DoAgentShouldExit(s: State, pid: int, ns: int, domain: nat, commit: bool): (State, Reply) {
    if AliveIn(s.procs, ns, domain) != {} then (s, Verdict(false))
    else if commit then (s.(agents := WithoutAgent(s.agents, pid)), Verdict(true))
    else (s, Verdict(true))
  }

  /** Drains one exited process, or lets an idle daemon deregister. Pids are non-negative; -1 stands for none. */
  ghost function DoCommitExit(s: State, ns: int, globalPid: int, caller: int): (State, Reply) {
    var procs := if globalPid >= 0 then s.procs - {globalPid} else s.procs;
    var idle := ProcessesOf(procs, ns) == {};
    if idle && globalPid < 0 && caller >= 0 && caller in procs && procs[caller].role.UnlinkDaemon?
    then (s.(procs := procs - {caller}, pools := Free(s.pools, caller)), Verdict(idle))
    else (s.(procs := procs), Verdict(idle))
  }

  // ---------- Topics ----------

  function CellsOf(wrappers: map<Cell, int>, T: int): set<Cell> {
    set c | c in wrappers && wrappers[c] == T
  }

  function Put(s: State, T: int, t: Topic): State {
    s.(topics := s.topics[T := t])
  }

  /** Finds or creates the wrapper of a cell; a new one shares its partner's store if that exists. */
  ghost function AddTopic(s: State, c: Cell, topicOk: bool): (State, Option<int>) {
    if c in s.wrappers then (s, Some(s.wrappers[c]))
    else if !topicOk then (s, None)
    else
      var d := Partner(s.rules, c);
      if d.Some? && d.value in s.wrappers && s.wrappers[d.value] in s.topics then
        var T := s.wrappers[d.value];
        (Put(s, T, s.topics[T].(refcnt := s.topics[T].refcnt + 1)).(wrappers := s.wrappers[c := T]), Some(T))
      else
        (Put(s, s.nextTopic, EmptyTopic(Find(s.rules, c))).(
           wrappers := s.wrappers[c := s.nextTopic], nextTopic := s.nextTopic + 1),
         Some(s.nextTopic))
  }

  ghost function DoJoinSubscriber(s: State, ns: int, name: string, a: SubArgs, topicOk: bool, fault: Fault)
    : (State, Reply)
  {
    var domain := DomainOf(s.procs, a.pid);
    var (s1, found) := AddTopic(s, Cell(ns, name, domain), topicOk);
    if found.None? || found.value !in s1.topics then (s1, Plain(Err(ENOMEM)))
    else
      var joined := AddSubscriber(s1.topics[found.value], domain, a, fault);
      (Put(s1, found.value, joined.0), Plain(joined.1))
  }

  ghost function DoJoinPublisher(s: State, ns: int, name: string, a: PubArgs, topicOk: bool, fault: Fault)
    : (State, Reply)
  {
    var domain := DomainOf(s.procs, a.pid);
    var (s1, found) := AddTopic(s, Cell(ns, name, domain), topicOk);
    if found.None? || found.value !in s1.topics then (s1, Plain(Err(ENOMEM)))
    else
      var joined := AddPublisher(s1.topics[found.value], domain, a, fault);
      (Put(s1, found.value, joined.0), Plain(joined.1))
  }

  /** The store a process reaches under a name: the one of its own domain's wrapper. */
  function StoreAt(s: State, pid: int, ns: int, name: string): Option<int> {
    var c := Cell(ns, name, DomainOf(s.procs, pid));
    if c in s.wrappers && s.wrappers[c] in s.topics then Some(s.wrappers[c]) else None
  }

  ghost function DoPublish(s: State, pid: int, ns: int, name: string, p: int, addr: int, allocOk: bool)
    : (State, Reply)
  {
    var found := StoreAt(s, pid, ns, name);
    if found.None? then (s, PublishReply(Err(EINVAL), [], {}))
    else
      var t := s.topics[found.value];
      if p !in t.pubs || t.pubs[p].pid !in s.procs then (s, PublishReply(Err(EINVAL), [], {}))
      else
        var k := s.procs[t.pubs[p].pid].pool;
        if k >= |s.pools| || !InPool(s.pools[k], s.poolSize, addr) then (s, PublishReply(Err(EINVAL), [], {}))
        else if !allocOk then (s, PublishReply(Err(ENOMEM), [], {}))
        else
          var t1 := Inserted(t, p, addr);
          var s1 := Put(s, found.value, Published(t, p, addr));
          if WalkRunsOff(t1, p) then (s1, PublishReply(Err(ENODATA), Reclaimable(t1, p), {}))
          else (s1, PublishReply(Ok(t.nextEntry), Reclaimable(t1, p), Listeners(AudienceOf(s.rules, t), t.pubs[p])))
  }

  // ---------- Delivery and mapping ----------

  /** The pools a subscriber has to map: those of live publishers that deliver to it from another process. */
  function PoolsToMap(s: State, t: Topic, q: Subscriber, domain: nat): set<int> {
    set p | p in t.pubs && !Dead(s.procs, t.pubs[p].pid) && t.pubs[p].pid != q.pid
            && Allows(s.rules, t.rule, t.pubs[p], q.(domain := domain)) :: s.procs[t.pubs[p].pid].pool
  }

  function MappedInto(pools: seq<Pool>, targets: set<int>, pid: int): seq<Pool> {
    seq(|pools|, k requires 0 <= k < |pools| =>
      if k in targets && pid !in pools[k].pids then Mapped(pools[k], pid) else pools[k])
  }

  function Unmappable(pools: seq<Pool>, targets: set<int>, pid: int): set<int> {
    set k | k in targets && 0 <= k < |pools| && pid !in pools[k].pids
  }

  /**
    The second half of a receive or take: map what is new, then stop asking. `t1` already has the
    message handed out.
   */
  ghost function MapPublishers(s: State, T: int, t1: Topic, id: int, domain: nat, buffers: nat, shm: ShmFault)
    : (State, Result<int>)
    requires id in t1.subs
  {
    var q := t1.subs[id];
    if !q.needMmap then (Put(s, T, t1), Ok(0))
    else
      var targets := PoolsToMap(s, t1, q, domain);
      var unmapped := Unmappable(s.pools, targets, q.pid);
      if shm.fails || |unmapped| > buffers then
        (Put(s, T, t1).(pools := MappedInto(s.pools, targets * shm.done, q.pid)),
         Err(if shm.fails then ENOMEM else ENOBUFS))
      else
        (Put(s, T, t1.(subs := t1.subs[id := q.(needMmap := false)])).(pools := MappedInto(s.pools, targets, q.pid)),
         Ok(|unmapped|))
  }

  ghost function DoReceive(s: State, pid: int, ns: int, name: string, id: int, buffers: nat, shm: ShmFault)
    : (State, Reply)
  {
    var found := StoreAt(s, pid, ns, name);
    if found.None? || id !in s.topics[found.value].subs then (s, DeliveryReply(Err(EINVAL), [], false))
    else
      var t := s.topics[found.value];
      var batch := Batch(WorldOf(s), t, t.subs[id]);
      var (s1, r) := MapPublishers(s, found.value, HandedOut(t, id, batch), id, DomainOf(s.procs, pid), buffers, shm);
      (s1, DeliveryReply(r, batch, |Window(WorldOf(s), t, t.subs[id])| > MAX_RECEIVE_NUM))
  }

  ghost function DoTake(s: State, pid: int, ns: int, name: string, id: int, allowSame: bool, buffers: nat,
                      shm: ShmFault)
    : (State, Reply)
  {
    var found := StoreAt(s, pid, ns, name);
    if found.None? || id !in s.topics[found.value].subs then (s, DeliveryReply(Err(EINVAL), [], false))
    else
      var t := s.topics[found.value];
      var batch := TakeCandidate(WorldOf(s), t, t.subs[id], allowSame);
      var (s1, r) := MapPublishers(s, found.value, HandedOut(t, id, batch), id, DomainOf(s.procs, pid), buffers, shm);
      (s1, DeliveryReply(r, batch, false))
  }

  ghost function DoRelease(s: State, pid: int, ns: int, name: string, id: int, entry: int): (State, Reply) {
    var found := StoreAt(s, pid, ns, name);
    if found.None? then (s, Plain(Err(EINVAL)))
    else
      var (t, r) := Release(s.topics[found.value], id, entry);
      (Put(s, found.value, t), Plain(if r.Ok? then Ok(0) else Err(EINVAL)))
  }

  // ---------- Leaving ----------

  /** Drops a wrapper whose domain has no endpoint left, and the store with its last wrapper. */
  function ReleaseWrapper(s: State, c: Cell): State
    requires c in s.wrappers && s.wrappers[c] in s.topics
  {
    var T := s.wrappers[c];
    var t := s.topics[T];
    if HasDomainEndpoint(t, c.domain) then s
    else if t.refcnt <= 1 then s.(wrappers := s.wrappers - {c}, topics := s.topics - {T})
    else Put(s, T, t.(refcnt := t.refcnt - 1)).(wrappers := s.wrappers - {c})
  }

  ghost function DoLeaveSubscriber(s: State, pid: int, ns: int, name: string, id: int): (State, Reply) {
    var found := StoreAt(s, pid, ns, name);
    if found.None? then (s, Plain(Err(EINVAL)))
    else if id !in s.topics[found.value].subs then (s, Plain(Err(ENODATA)))
    else
      var s1 := Put(s, found.value, RemoveSubscriber(s.procs, s.topics[found.value], id));
      (ReleaseWrapper(s1, Cell(ns, name, DomainOf(s.procs, pid))), Plain(Ok(0)))
  }

  ghost function DoLeavePublisher(s: State, pid: int, ns: int, name: string, id: int): (State, Reply) {
    var found := StoreAt(s, pid, ns, name);
    if found.None? then (s, Plain(Err(EINVAL)))
    else if id !in s.topics[found.value].pubs then (s, Plain(Err(ENODATA)))
    else
      var s1 := Put(s, found.value, RemovePublisher(s.topics[found.value], id));
      (ReleaseWrapper(s1, Cell(ns, name, DomainOf(s.procs, pid))), Plain(Ok(0)))
  }

  function Exited(procs: map<int, Process>, pid: int): map<int, Process>
    requires pid in procs
  {
    if procs[pid].role.UnlinkDaemon? then procs - {pid} else procs[pid := procs[pid].(exited := true)]
  }

  function ExitTopics(procs: map<int, Process>, topics: map<int, Topic>, pid: int): map<int, Topic> {
    map T | T in topics :: Exit(procs, topics[T], pid)
  }

  /** The wrappers that keep an endpoint of their own domain. */
  function InUse(wrappers: map<Cell, int>, topics: map<int, Topic>): map<Cell, int> {
    map c | c in wrappers && wrappers[c] in topics && HasDomainEndpoint(topics[wrappers[c]], c.domain) :: wrappers[c]
  }

  /** The stores some wrapper still refers to, with their references recounted. */
  function Referred(wrappers: map<Cell, int>, topics: map<int, Topic>): map<int, Topic> {
    map T | T in topics && CellsOf(wrappers, T) != {} :: topics[T].(refcnt := |CellsOf(wrappers, T)|)
  }

  ghost function DoExit(s: State, pid: int): State {
    var s0 := s.(agents := WithoutAgent(s.agents, pid));
    if pid !in s.procs then s0
    else
      var procs := Exited(s.procs, pid);
      var topics := ExitTopics(procs, s.topics, pid);
      var wrappers := InUse(s.wrappers, topics);
      s0.(procs := procs, pools := Free(s.pools, pid), wrappers := wrappers, topics := Referred(wrappers, topics))
  }

  // ---------- The transition system ----------

  ghost function Step(s: State, op: Op): (State, Reply) {
    match op
    case AddProcess(pid, ns, role, domain, ok) => DoAddProcess(s, pid, ns, role, domain, ok)
    case BridgeShutdown(pid) => (s.(procs := Demoted(s.procs, pid)), Plain(Ok(0)))
    case CheckBridgeShutdown(pid, ns) => DoCheckBridgeShutdown(s, pid, ns)
    case AddAgent(pid, ns, domain, ok) => DoAddAgent(s, pid, ns, domain, ok)
    case AgentShouldExit(pid, ns, domain, commit) => DoAgentShouldExit(s, pid, ns, domain, commit)
    case CommitExit(ns, globalPid, caller) => DoCommitExit(s, ns, globalPid, caller)
    case AddBridge(ns, nf, nt, f, t, ok) =>
      var (rules, r) := AddExact(s.rules, s.wrappers.Keys, s.nextRule, ns, nf, nt, f, t, ok);
      (s.(rules := rules, nextRule := s.nextRule + 1), Plain(if r.Ok? then Ok(0) else Err(r.error)))
    case AddBridgePrefix(ns, p, f, t, ok) =>
      var (rules, r) := AddPrefix(s.rules, s.wrappers.Keys, s.nextRule, ns, p, f, t, ok);
      (s.(rules := rules, nextRule := s.nextRule + 1), Plain(if r.Ok? then Ok(0) else Err(r.error)))
    case JoinSubscriber(ns, name, a, topicOk, fault) => DoJoinSubscriber(s, ns, name, a, topicOk, fault)
    case JoinPublisher(ns, name, a, topicOk, fault) => DoJoinPublisher(s, ns, name, a, topicOk, fault)
    case PublishMsg(pid, ns, name, id, addr, ok) => DoPublish(s, pid, ns, name, id, addr, ok)
    case ReceiveMsg(pid, ns, name, id, buffers, shm) => DoReceive(s, pid, ns, name, id, buffers, shm)
    case TakeMsg(pid, ns, name, id, same, buffers, shm) => DoTake(s, pid, ns, name, id, same, buffers, shm)
    case ReleaseRef(pid, ns, name, id, entry) => DoRelease(s, pid, ns, name, id, entry)
    case LeaveSubscriber(pid, ns, name, id) => DoLeaveSubscriber(s, pid, ns, name, id)
    case LeavePublisher(pid, ns, name, id) => DoLeavePublisher(s, pid, ns, name, id)
    case ProcessExit(pid) => (DoExit(s, pid), Plain(Ok(0)))
  }

  /** A live, registered process that may open endpoints: the unlink daemon opens none. */
  predicate Participant(procs: map<int, Process>, pid: int) {
    Alive(procs, pid) && !procs[pid].role.UnlinkDaemon?
  }

  /** A live process acting on an endpoint of its own, if the id names one at all. */
  predicate OwnsSubscriber(s: State, pid: int, ns: int, name: string, id: int) {
    && Alive(s.procs, pid)
    && var found := StoreAt(s, pid, ns, name);
       found.Some? && id in s.topics[found.value].subs ==> s.topics[found.value].subs[id].pid == pid
  }

  predicate OwnsPublisher(s: State, pid: int, ns: int, name: string, id: int) {
    && Alive(s.procs, pid)
    && var found := StoreAt(s, pid, ns, name);
       found.Some? && id in s.topics[found.value].pubs ==> s.topics[found.value].pubs[id].pid == pid
  }

  /**
    What the environment promises. Pids are not reused: a process registers under a pid no leftover
    publisher carries. Endpoints are opened by registered live processes and used by their owner. A
    drained pid was reported as exited, to a caller of the same namespace. Only bridge managers and
    applications report a bridge shutdown, and an agent speaks for one (namespace, domain).
   */
  ghost predicate Allowed(s: State, op: Op) {
    match op
    case AddProcess(pid, _, _, _, _) =>
      pid >= 0 && forall T, p :: T in s.topics && p in s.topics[T].pubs ==> s.topics[T].pubs[p].pid != pid
    case BridgeShutdown(pid) => pid in s.procs ==> !s.procs[pid].role.UnlinkDaemon?
    case CheckBridgeShutdown(pid, ns) => pid in s.procs ==> !s.procs[pid].role.UnlinkDaemon?
    case AddAgent(pid, ns, domain, _) => forall a :: a in s.agents && a.pid == pid ==> a.ns == ns && a.domain == domain
    case AgentShouldExit(pid, ns, domain, _) =>
      forall a :: a in s.agents && a.pid == pid ==> a.ns == ns && a.domain == domain
    case CommitExit(ns, g, caller) =>
      (g in s.procs ==> s.procs[g].exited) && (caller in s.procs ==> s.procs[caller].ns == ns)
    case AddBridge(_, _, _, _, _, _) => true
    case AddBridgePrefix(_, _, _, _, _) => true
    case JoinSubscriber(_, _, a, _, _) => Participant(s.procs, a.pid)
    case JoinPublisher(_, _, a, _, _) => Participant(s.procs, a.pid)
    case PublishMsg(pid, ns, name, id, _, _) => OwnsPublisher(s, pid, ns, name, id)
    case ReceiveMsg(pid, ns, name, id, _, _) => OwnsSubscriber(s, pid, ns, name, id)
    case TakeMsg(pid, ns, name, id, _, _, _) => OwnsSubscriber(s, pid, ns, name, id)
    case ReleaseRef(pid, ns, name, id, _) => OwnsSubscriber(s, pid, ns, name, id)
    case LeaveSubscriber(pid, ns, name, id) => OwnsSubscriber(s, pid, ns, name, id)
    case LeavePublisher(pid, ns, name, id) => OwnsPublisher(s, pid, ns, name, id)
    case ProcessExit(pid) => true
  }

  ghost predicate Init(s: State) {
    && s.procs == map[] && s.agents == {} && s.rules == map[] && s.wrappers == map[] && s.topics == map[]
    && LaidOut(s.pools, s.poolStart, s.poolSize)
    && forall k :: 0 <= k < |s.pools| ==> s.pools[k].mappedNum == 0 && s.pools[k].pids == []
  }

  ghost predicate Run(states: seq<State>, ops: seq<Op>) {
    && |states| == |ops| + 1
    && Init(states[0])
    && forall i :: 0 <= i < |ops| ==> Allowed(states[i], ops[i]) && states[i + 1] == Step(states[i], ops[i]).0
  }
}
