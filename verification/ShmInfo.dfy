// set_publisher_shm_info: the walk that maps a subscriber into the pools of its publishers.

module ShmInfo {
  import opened Base
  import opened Sets
  import opened TopicModel
  import opened TopicStructs
  import opened Mempools
  import opened KernelModel
  import opened KernelInvariant

  /** Whether subscriber `q`, asking through a wrapper of `domain`, has to map this publisher's pool. */
  predicate MustMap(w: World, rule: Option<int>, p: Publisher, q: Subscriber, domain: nat) {
    !Dead(w.procs, p.pid) && p.pid != q.pid && Allows(w.rules, rule, p, q.(domain := domain))
  }

  lemma MapOneMore(pools: seq<Pool>, done: set<int>, k: nat, pid: int)
    requires k < |pools|
    ensures Reference(MappedInto(pools, done, pid), k, pid) == MappedInto(pools, done + {k}, pid)
    ensures var known := pid in MappedInto(pools, done, pid)[k].pids;
      && (known <==> pid in pools[k].pids || k in done)
      && |Unmappable(pools, done + {k}, pid)| == |Unmappable(pools, done, pid)| + (if known then 0 else 1)
  {
    var a, b := Reference(MappedInto(pools, done, pid), k, pid), MappedInto(pools, done + {k}, pid);
    assert forall i :: 0 <= i < |pools| ==> a[i] == b[i];
    assert a == b;
    if pid in pools[k].pids || k in done {
      assert Unmappable(pools, done + {k}, pid) == Unmappable(pools, done, pid);
    } else {
      assert Unmappable(pools, done + {k}, pid) == Unmappable(pools, done, pid) + {k};
    }
  }

  lemma MoreToMap(pools: seq<Pool>, done: set<int>, targets: set<int>, pid: int)
    requires done <= targets
    ensures |Unmappable(pools, done, pid)| <= |Unmappable(pools, targets, pid)|
  {
    SubsetCardinality(Unmappable(pools, done, pid), Unmappable(pools, targets, pid));
  }

  lemma IsTarget(s: State, t: Topic, q: Subscriber, domain: nat, p: int)
    requires p in t.pubs && MustMap(WorldOf(s), t.rule, t.pubs[p], q, domain)
    ensures t.pubs[p].pid in s.procs && s.procs[t.pubs[p].pid].pool in PoolsToMap(s, t, q, domain)
  {
  }

  lemma AllTargets(s: State, t: Topic, q: Subscriber, domain: nat, done: set<int>)
    requires done <= PoolsToMap(s, t, q, domain)
    requires forall p :: p in t.pubs && MustMap(WorldOf(s), t.rule, t.pubs[p], q, domain) ==>
      s.procs[t.pubs[p].pid].pool in done
    ensures done == PoolsToMap(s, t, q, domain)
  {
  }

  /** `budget` is how many allocations succeed before one fails; `buffers` the size of the caller's buffer. */
  method SetPublisherShmInfo(memory: MempoolAllocator, w: World, topic: TopicStruct, q: Subscriber, domain: nat,
                             buffers: nat, budget: nat, ghost s: State)
    returns (r: Result<int>, ghost shm: ShmFault)
    requires WorldOf(s) == w
    requires forall pid :: Alive(w.procs, pid) ==> w.procs[pid].pool < memory.entries.Length
    modifies memory.entries
    ensures var targets := PoolsToMap(s, topic.View(), q, domain);
      var unmapped := Unmappable(old(memory.entries[..]), targets, q.pid);
      && (r.Err? <==> shm.fails || |unmapped| > buffers)
      && (r.Err? ==> r.error == if shm.fails then ENOMEM else ENOBUFS)
      && (r.Ok? ==> r.value == |unmapped|)
      && memory.entries[..] == MappedInto(old(memory.entries[..]), if r.Ok? then targets else targets * shm.done, q.pid)
    ensures budget >= |topic.pubs| ==> !shm.fails
  {
    hide MappedInto, Unmappable, PoolsToMap, Allows, Reference;
    ghost var pools, t, done := memory.entries[..], topic.View(), {};
    ghost var targets := PoolsToMap(s, t, q, domain);
    MapNothing(pools, q.pid);
    var num, left := 0, budget;
    var remaining := topic.pubs.Keys;
    while remaining != {}
      invariant remaining <= topic.pubs.Keys && done <= targets && t == topic.View()
      invariant memory.entries[..] == MappedInto(pools, done, q.pid) && memory.entries.Length == |pools|
      invariant num == |Unmappable(pools, done, q.pid)| <= buffers
      invariant forall p :: p in topic.pubs && p !in remaining && MustMap(w, t.rule, topic.pubs[p], q, domain) ==>
        w.procs[topic.pubs[p].pid].pool in done
      invariant budget >= |topic.pubs| ==> left >= |remaining|
      decreases remaining
    {
      var id := Pick(remaining);
      remaining := remaining - {id};
      var p := topic.pubs[id];
      if q.pid == p.pid { continue; }
      if !Allows(w.rules, topic.rule, p, q.(domain := domain)) { continue; }
      if p.pid !in w.procs || w.procs[p.pid].exited { continue; }
      IsTarget(s, t, q, domain, id);
      var k := w.procs[p.pid].pool;
      assert Alive(w.procs, p.pid);
      MapOneMore(pools, done, k, q.pid);
      MoreToMap(pools, done + {k}, targets, q.pid);
      ghost var known := q.pid in memory.entries[k].pids;
      var mapped := memory.ReferenceMemory(k, q.pid, left > 0);
      if mapped.Err? && mapped.error != EEXIST {
        assert targets * done == done;
        return Err(mapped.error), ShmFault(true, done);
      }
      left := if left > 0 then left - 1 else 0;
      done := done + {k};
      if mapped.Err? { continue; }
      if num == buffers {
        assert targets * done == done;
        return Err(ENOBUFS), ShmFault(false, done);
      }
      num := num + 1;
    }
    AllTargets(s, t, q, domain, done);
    r, shm := Ok(num), ShmFault(false, {});
  }
}
