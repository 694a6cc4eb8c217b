// The mapping stage of receives and takes in several processes at once.
//
// Each call walks over the publishers of its topic under read locks, which other processes' calls hold
// as well, for the same topic or for others; only one reference to one pool at a time is atomic, under
// the pool lock. Pools are shared by all topics. The lists of mappers may come out in another order.

module ConcurrentMapping {
  import opened Base
  import opened Seqs
  import opened TopicModel
  import opened Mempools
  import opened KernelModel
  import opened KernelInvariant
  import opened ShmInfo

  // ---------- Concurrent walks, step by step ----------

  /** A walk over pools to map: those it has asked for are `done`, and `num` of them were new. */
  datatype Walk = Walk(targets: set<int>, buffers: nat, done: set<int>, num: nat)

  /** At most one walk runs per process: the library holds a lock of the process around the call. */
  datatype Config = Config(pools: seq<Pool>, walks: map<int, Walk>)

  datatype Move =
    | Begin(pid: int, targets: set<int>, buffers: nat)
    | Refer(pid: int, k: nat)
    | OutOfMemory(pid: int)
    | Finish(pid: int)

  /** Two publishers of one process share a pool, so a walk may ask for a pool more than once. */
  predicate Possible(c: Config, m: Move) {
    match m
    case Begin(pid, targets, _) => pid !in c.walks && forall k :: k in targets ==> 0 <= k < |c.pools|
    case Refer(pid, k) => pid in c.walks && k in c.walks[pid].targets && k < |c.pools|
    case OutOfMemory(pid) => pid in c.walks && c.walks[pid].targets != {}
    case Finish(pid) => pid in c.walks && c.walks[pid].targets <= c.walks[pid].done
  }

  /** A new reference for which the caller's buffer has no room stays behind when the walk gives up. */
  predicate Overruns(c: Config, m: Move)
    requires Possible(c, m)
  {
    m.Refer? && m.pid !in c.pools[m.k].pids && c.walks[m.pid].num == c.walks[m.pid].buffers
  }

  function Do(c: Config, m: Move): Config
    requires Possible(c, m)
  {
    match m
    case Begin(pid, targets, buffers) => c.(walks := c.walks[pid := Walk(targets, buffers, {}, 0)])
    case Refer(pid, k) =>
      var w := c.walks[pid].(done := c.walks[pid].done + {k});
      if pid in c.pools[k].pids then c.(walks := c.walks[pid := w])
      else if Overruns(c, m) then Config(Reference(c.pools, k, pid), c.walks - {pid})
      else Config(Reference(c.pools, k, pid), c.walks[pid := w.(num := w.num + 1)])
    case OutOfMemory(pid) => c.(walks := c.walks - {pid})
    case Finish(pid) => c.(walks := c.walks - {pid})
  }

  // ---------- The serial calls ----------

  datatype Call = Call(pid: int, targets: set<int>, buffers: nat, shm: ShmFault)

  function SerialResult(pools: seq<Pool>, call: Call): Result<int> {
    var unmapped := Unmappable(pools, call.targets, call.pid);
    if call.shm.fails then Err(ENOMEM) else if |unmapped| > call.buffers then Err(ENOBUFS) else Ok(|unmapped|)
  }

  function SerialPools(pools: seq<Pool>, call: Call): seq<Pool> {
    MappedInto(pools, if SerialResult(pools, call).Ok? then call.targets else call.targets * call.shm.done, call.pid)
  }

  /** The serial call is the mapping stage as one step of the system. */
  lemma CallIsMappingStage(s: State, T: int, t: Topic, id: int, domain: nat, buffers: nat, shm: ShmFault)
    requires id in t.subs && t.subs[id].needMmap
    ensures var q := t.subs[id];
      var call := Call(q.pid, PoolsToMap(s, t, q, domain), buffers, shm);
      var (u, r) := MapPublishers(s, T, t, id, domain, buffers, shm);
      r == SerialResult(s.pools, call) && u.pools == SerialPools(s.pools, call)
  {
    hide PoolsToMap, Unmappable, MappedInto;
  }

  /** The call a step finishes, if any, and what it returns. */
  function Finished(c: Config, m: Move): seq<(Call, Result<int>)>
    requires Possible(c, m)
  {
    if m.Begin? then []
    else
      var w := c.walks[m.pid];
      if m.Finish? then [(Call(m.pid, w.targets, w.buffers, ShmFault(false, {})), Ok(w.num))]
      else if m.OutOfMemory? then [(Call(m.pid, w.targets, w.buffers, ShmFault(true, w.done)), Err(ENOMEM))]
      else if Overruns(c, m) then
        [(Call(m.pid, w.targets, w.buffers, ShmFault(false, w.done + {m.k})), Err(ENOBUFS))]
      else []
  }

  /** The pools after the calls one by one. */
  function AfterCalls(pools: seq<Pool>, calls: seq<(Call, Result<int>)>): seq<Pool> {
    if calls == [] then pools
    else SerialPools(AfterCalls(pools, calls[..|calls| - 1]), calls[|calls| - 1].0)
  }

  /** Each call returned what it returns when the calls are made one by one. */
  ghost predicate ResultsSerial(pools: seq<Pool>, calls: seq<(Call, Result<int>)>) {
    forall i :: 0 <= i < |calls| ==> calls[i].1 == SerialResult(AfterCalls(pools, calls[..i]), calls[i].0)
  }

  // ---------- The simulation ----------

  predicate Maps(pools: seq<Pool>, k: int, q: int) {
    0 <= k < |pools| && q in pools[k].pids
  }

  predicate Refers(walks: map<int, Walk>, k: int, q: int) {
    q in walks && k in walks[q].done
  }

  /** `p` has exactly the mappings of completed calls; the others are those the running walks have made. */
  ghost predicate Simulates(c: Config, p: seq<Pool>) {
    && PoolsOk(c.pools) && PoolsOk(p) && |c.pools| == |p|
    && (forall k :: 0 <= k < |p| ==> c.pools[k].addr == p[k].addr)
    && (forall k, q :: 0 <= k < |p| ==> (Maps(c.pools, k, q) <==> Maps(p, k, q) || Refers(c.walks, k, q)))
    && (forall q :: q in c.walks ==> WalkOk(p, q, c.walks[q]))
  }

  ghost predicate WalkOk(p: seq<Pool>, q: int, w: Walk) {
    && w.done <= w.targets
    && (forall k :: k in w.targets ==> 0 <= k < |p|)
    && w.num == |Unmappable(p, w.done, q)| <= w.buffers
  }

  /** A process maps what it did before its call began, and what the call has asked for. */
  lemma OwnMappings(c: Config, p: seq<Pool>, pid: int)
    requires Simulates(c, p) && pid in c.walks
    ensures WalkOk(p, pid, c.walks[pid])
    ensures forall k :: 0 <= k < |p| ==> (pid in c.pools[k].pids <==> pid in p[k].pids || k in c.walks[pid].done)
  {
    hide PoolsOk, WalkOk;
    forall k | 0 <= k < |p| ensures pid in c.pools[k].pids <==> pid in p[k].pids || k in c.walks[pid].done {
      assert Maps(c.pools, k, pid) <==> Maps(p, k, pid) || Refers(c.walks, k, pid);
    }
  }

  lemma BeginSimulates(c: Config, p: seq<Pool>, m: Move)
    requires Simulates(c, p) && Possible(c, m) && m.Begin?
    ensures Simulates(Do(c, m), p)
  {
    hide PoolOk, Unmappable, MappedInto, PoolsOk;
    MapNothing(p, m.pid);
    var u := Do(c, m);
    assert WalkOk(p, m.pid, u.walks[m.pid]);
    forall k, q | 0 <= k < |p| ensures Maps(u.pools, k, q) <==> Maps(p, k, q) || Refers(u.walks, k, q) {
      assert Maps(c.pools, k, q) <==> Maps(p, k, q) || Refers(c.walks, k, q);
    }
  }

  /** One more pool asked for: it was known, or it counts. */
  lemma OneMore(p: seq<Pool>, done: set<int>, k: nat, pid: int)
    requires k < |p|
    ensures |Unmappable(p, done + {k}, pid)| ==
      |Unmappable(p, done, pid)| + if pid in p[k].pids || k in done then 0 else 1
  {
    hide MappedInto, Unmappable;
    MapOneMore(p, done, k, pid);
  }

  lemma ReferSimulates(c: Config, p: seq<Pool>, m: Move)
    requires Simulates(c, p) && Possible(c, m) && m.Refer? && !Overruns(c, m)
    ensures Simulates(Do(c, m), p)
  {
    hide PoolOk, Unmappable, Reference, PoolsOk;
    OwnMappings(c, p, m.pid);
    OneMore(p, c.walks[m.pid].done, m.k, m.pid);
    ReferenceKeeps(c.pools, m.k, m.pid);
    SameAddresses(c.pools, m.k, m.pid);
    if m.pid in c.pools[m.k].pids { KnownReference(c.pools, m.k, m.pid); }
    var u := Do(c, m);
    assert u.pools == Reference(c.pools, m.k, m.pid);
    assert WalkOk(p, m.pid, u.walks[m.pid]);
    forall k, q | 0 <= k < |p| ensures Maps(u.pools, k, q) <==> Maps(p, k, q) || Refers(u.walks, k, q) {
      assert Maps(c.pools, k, q) <==> Maps(p, k, q) || Refers(c.walks, k, q);
    }
  }

  lemma KnownReference(pools: seq<Pool>, k: nat, pid: int)
    requires k < |pools| && pid in pools[k].pids
    ensures Reference(pools, k, pid) == pools
  {
  }

  /** A completed call changes what nobody else's walk depends on. */
  lemma OtherWalksKept(p: seq<Pool>, u: seq<Pool>, pid: int, q: int, w: Walk)
    requires WalkOk(p, q, w) && q != pid && OthersKept(p, u, pid)
    ensures WalkOk(u, q, w)
  {
    assert Unmappable(u, w.done, q) == Unmappable(p, w.done, q);
  }

  /** A walk that ends leaves its references in the store of completed calls. */
  lemma EndSimulates(c: Config, p: seq<Pool>, pid: int, pools: seq<Pool>, made: set<int>)
    requires Simulates(c, p) && pid in c.walks && PoolsOk(pools) && OthersKept(c.pools, pools, pid)
    requires forall k :: 0 <= k < |p| ==> pools[k].addr == c.pools[k].addr
    requires forall k :: 0 <= k < |p| ==> (pid in pools[k].pids <==> pid in p[k].pids || k in made)
    ensures Simulates(Config(pools, c.walks - {pid}), MappedInto(p, made, pid))
  {
    hide PoolOk, MappedInto, WalkOk;
    MappedIntoFacts(p, made, pid);
    var u := MappedInto(p, made, pid);
    forall q | q in c.walks && q != pid ensures WalkOk(u, q, c.walks[q]) {
      OtherWalksKept(p, u, pid, q, c.walks[q]);
    }
    forall k, q | 0 <= k < |p| ensures Maps(pools, k, q) <==> Maps(u, k, q) || Refers(c.walks - {pid}, k, q) {
      assert Maps(c.pools, k, q) <==> Maps(p, k, q) || Refers(c.walks, k, q);
    }
  }

  lemma OverrunSimulates(c: Config, p: seq<Pool>, m: Move)
    requires Simulates(c, p) && Possible(c, m) && Overruns(c, m)
    ensures var call := Finished(c, m)[0];
      call.1 == SerialResult(p, call.0) && Simulates(Do(c, m), SerialPools(p, call.0))
  {
    hide PoolOk, Unmappable, Reference, MappedInto, PoolsOk;
    var w := c.walks[m.pid];
    var made := w.done + {m.k};
    OwnMappings(c, p, m.pid);
    OneMore(p, w.done, m.k, m.pid);
    MoreToMap(p, made, w.targets, m.pid);
    ReferenceKeeps(c.pools, m.k, m.pid);
    assert w.targets * made == made;
    SameAddresses(c.pools, m.k, m.pid);
    EndSimulates(c, p, m.pid, Reference(c.pools, m.k, m.pid), made);
  }

  lemma SameAddresses(pools: seq<Pool>, k: nat, pid: int)
    requires k < |pools|
    ensures |Reference(pools, k, pid)| == |pools|
    ensures forall i :: 0 <= i < |pools| ==> Reference(pools, k, pid)[i].addr == pools[i].addr
  {
  }

  lemma StopSimulates(c: Config, p: seq<Pool>, m: Move)
    requires Simulates(c, p) && Possible(c, m) && (m.Finish? || m.OutOfMemory?)
    ensures var call := Finished(c, m)[0];
      call.1 == SerialResult(p, call.0) && Simulates(Do(c, m), SerialPools(p, call.0))
  {
    hide PoolOk, Unmappable, MappedInto, PoolsOk;
    var w := c.walks[m.pid];
    OwnMappings(c, p, m.pid);
    assert w.targets * w.done == w.done;
    assert m.Finish? ==> w.done == w.targets;
    EndSimulates(c, p, m.pid, c.pools, w.done);
  }

  lemma MoveSimulates(c: Config, p: seq<Pool>, m: Move)
    requires Simulates(c, p) && Possible(c, m)
    ensures var done := Finished(c, m);
      if done == [] then Simulates(Do(c, m), p)
      else |done| == 1 && done[0].1 == SerialResult(p, done[0].0) && Simulates(Do(c, m), SerialPools(p, done[0].0))
  {
    hide Simulates, Do, SerialResult, SerialPools;
    match m {
      case Begin(_, _, _) => BeginSimulates(c, p, m);
      case Refer(_, _) =>
        if Overruns(c, m) {
          OverrunSimulates(c, p, m);
        } else {
          ReferSimulates(c, p, m);
        }
      case OutOfMemory(_) => StopSimulates(c, p, m);
      case Finish(_) => StopSimulates(c, p, m);
    }
  }

  // ---------- Every interleaving is serial ----------

  ghost predicate Interleaving(configs: seq<Config>, moves: seq<Move>) {
    && |configs| == |moves| + 1
    && PoolsOk(configs[0].pools) && configs[0].walks == map[]
    && forall i :: 0 <= i < |moves| ==> Possible(configs[i], moves[i]) && configs[i + 1] == Do(configs[i], moves[i])
  }

  /** The calls completed by the first `n` moves, in order of completion, with what they returned. */
  ghost function Completed(configs: seq<Config>, moves: seq<Move>, n: nat): seq<(Call, Result<int>)>
    requires Interleaving(configs, moves) && n <= |moves|
  {
    if n == 0 then [] else Completed(configs, moves, n - 1) + Finished(configs[n - 1], moves[n - 1])
  }

  lemma OneCallMore(pools: seq<Pool>, calls: seq<(Call, Result<int>)>, call: (Call, Result<int>))
    requires ResultsSerial(pools, calls) && call.1 == SerialResult(AfterCalls(pools, calls), call.0)
    ensures ResultsSerial(pools, calls + [call])
    ensures AfterCalls(pools, calls + [call]) == SerialPools(AfterCalls(pools, calls), call.0)
  {
    hide SerialResult, SerialPools;
    var more := calls + [call];
    assert more[..|calls|] == calls;
    forall i | 0 <= i < |more| ensures more[i].1 == SerialResult(AfterCalls(pools, more[..i]), more[i].0) {
      if i < |calls| {
        assert more[..i] == calls[..i];
      }
    }
  }

  /** At any moment the completed calls returned, and left, what they do one after the other in order of completion. */
  lemma {:induction false} CompletedSerially(configs: seq<Config>, moves: seq<Move>, n: nat)
    requires Interleaving(configs, moves) && n <= |moves|
    ensures var pools, calls := configs[0].pools, Completed(configs, moves, n);
      ResultsSerial(pools, calls) && Simulates(configs[n], AfterCalls(pools, calls))
  {
    hide Simulates, Possible, Do, Finished, SerialResult, SerialPools;
    var pools := configs[0].pools;
    if n == 0 {
      assert Simulates(configs[0], pools) by { NothingRuns(configs[0]); }
    } else {
      CompletedSerially(configs, moves, n - 1);
      var calls, done := Completed(configs, moves, n - 1), Finished(configs[n - 1], moves[n - 1]);
      assert configs[(n - 1) + 1] == Do(configs[n - 1], moves[n - 1]);
      MoveSimulates(configs[n - 1], AfterCalls(pools, calls), moves[n - 1]);
      if done == [] {
        assert calls + done == calls;
      } else {
        assert done == [done[0]];
        OneCallMore(pools, calls, done[0]);
      }
    }
  }

  lemma NothingRuns(c: Config)
    requires PoolsOk(c.pools) && c.walks == map[]
    ensures Simulates(c, c.pools)
  {
  }

  /** The same pools with the same mappers, listed in any order. */
  ghost predicate Alike(a: seq<Pool>, b: seq<Pool>) {
    && |a| == |b|
    && forall k :: 0 <= k < |a| ==>
         && a[k].addr == b[k].addr && a[k].mappedNum == b[k].mappedNum
         && multiset(a[k].pids) == multiset(b[k].pids)
  }

  /** Once every walk has ended, the pools are as the same calls one after the other leave them. */
  lemma MappingIsSerial(configs: seq<Config>, moves: seq<Move>)
    requires Interleaving(configs, moves) && configs[|moves|].walks == map[]
    ensures var pools, calls := configs[0].pools, Completed(configs, moves, |moves|);
      ResultsSerial(pools, calls) && Alike(configs[|moves|].pools, AfterCalls(pools, calls))
  {
    hide AfterCalls, Completed, ResultsSerial, Possible, Do, Simulates;
    var pools, calls := configs[0].pools, Completed(configs, moves, |moves|);
    CompletedSerially(configs, moves, |moves|);
    AllEnded(configs[|moves|], AfterCalls(pools, calls));
  }

  lemma AllEnded(c: Config, p: seq<Pool>)
    requires Simulates(c, p) && c.walks == map[]
    ensures Alike(c.pools, p)
  {
    forall k | 0 <= k < |p|
      ensures c.pools[k].mappedNum == p[k].mappedNum && multiset(c.pools[k].pids) == multiset(p[k].pids)
    {
      assert PoolOk(c.pools[k]) && PoolOk(p[k]);
      forall q ensures q in c.pools[k].pids <==> q in p[k].pids {
        assert Maps(c.pools, k, q) <==> Maps(p, k, q) || Refers(c.walks, k, q);
      }
      SameMembersSameBag(c.pools[k].pids, p[k].pids);
    }
  }

  lemma SameMembersSameBag(a: seq<int>, b: seq<int>)
    requires Distinct(a) && Distinct(b) && forall q :: q in a <==> q in b
    ensures multiset(a) == multiset(b) && |a| == |b|
  {
    forall q ensures multiset(a)[q] == multiset(b)[q] {
      OnceOrNever(a, q);
      OnceOrNever(b, q);
    }
    assert multiset(a) == multiset(b);
    assert |multiset(a)| == |a| && |multiset(b)| == |b|;
  }

  lemma {:induction false} OnceOrNever(s: seq<int>, q: int)
    requires Distinct(s)
    ensures multiset(s)[q] == if q in s then 1 else 0
  {
    if s != [] {
      var n := |s| - 1;
      OnceOrNever(s[..n], q);
      assert s == s[..n] + [s[n]];
      assert multiset(s) == multiset(s[..n]) + multiset([s[n]]);
      if q == s[n] {
        assert q !in s[..n];
      }
    }
  }
}
