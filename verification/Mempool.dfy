// The shared-memory pools: one address range per pool, and the list of processes that map it.

module Mempools {
  import opened Base
  import opened Seqs

  const U64: int := 0x1_0000_0000_0000_0000
  const GIB: int := 1024 * 1024 * 1024

  datatype Pool = Pool(addr: int, mappedNum: int, pids: seq<int>)

  function Index(pids: seq<int>, pid: int): (i: nat)
    ensures i <= |pids|
    ensures pid in pids ==> i < |pids| && pids[i] == pid && pid !in pids[..i]
    ensures pid !in pids ==> i == |pids|
  {
    if pids == [] then 0
    else if pids[0] == pid then 0
    else
      assert pids == [pids[0]] + pids[1..];
      1 + Index(pids[1..], pid)
  }

  function Dropped(pids: seq<int>, pid: int): seq<int> {
    var i := Index(pids, pid);
    if i < |pids| then pids[..i] + pids[i + 1..] else pids
  }

  function Mapped(p: Pool, pid: int): Pool {
    Pool(p.addr, p.mappedNum + 1, [pid] + p.pids)
  }

  function Unmapped(p: Pool, pid: int): Pool {
    if pid in p.pids then Pool(p.addr, p.mappedNum - 1, Dropped(p.pids, pid)) else p
  }

  /** The first pool nobody maps. */
  function FirstFree(pools: seq<Pool>): (k: nat)
    ensures k <= |pools|
    ensures k < |pools| ==> pools[k].mappedNum == 0
    ensures forall i :: 0 <= i < k ==> pools[i].mappedNum != 0
  {
    if pools == [] || pools[0].mappedNum == 0 then 0
    else
      assert forall i :: 0 < i < |pools| ==> pools[i] == pools[1..][i - 1];
      1 + FirstFree(pools[1..])
  }

  function Assign(pools: seq<Pool>, pid: int): seq<Pool> {
    var k := FirstFree(pools);
    if k < |pools| then pools[k := Pool(pools[k].addr, 1, [pid] + pools[k].pids)] else pools
  }

  function Reference(pools: seq<Pool>, k: nat, pid: int): seq<Pool>
    requires k < |pools|
  {
    if pid in pools[k].pids then pools else pools[k := Mapped(pools[k], pid)]
  }

  function Free(pools: seq<Pool>, pid: int): seq<Pool> {
    seq(|pools|, k requires 0 <= k < |pools| => Unmapped(pools[k], pid))
  }

  // ---------- The pool invariant ----------

  ghost predicate PoolOk(p: Pool) {
    p.mappedNum == |p.pids| && Distinct(p.pids)
  }

  ghost predicate PoolsOk(pools: seq<Pool>) {
    forall k :: 0 <= k < |pools| ==> PoolOk(pools[k])
  }

  /** Pools lie side by side and end below 2^64. */
  ghost predicate LaidOut(pools: seq<Pool>, start: int, size: int) {
    && 0 <= start && 0 < size
    && (forall k :: 0 <= k < |pools| ==> pools[k].addr == start + k * size)
    && start + |pools| * size < U64
  }

  predicate InPool(p: Pool, size: int, addr: int) {
    p.addr <= addr < p.addr + size
  }

  /** The address ranges do not wrap and are pairwise disjoint. */
  lemma RangesDisjoint(pools: seq<Pool>, start: int, size: int, i: nat, j: nat, addr: int)
    requires LaidOut(pools, start, size) && i < |pools| && j < |pools|
    requires InPool(pools[i], size, addr) && InPool(pools[j], size, addr)
    ensures i == j && 0 <= addr < U64
  {
    Between(start, size, i, |pools|);
    if i < j { Between(start, size, i, j); }
    if j < i { Between(start, size, j, i); }
  }

  lemma {:induction false} Between(start: int, size: int, i: nat, j: nat)
    requires 0 < size && i < j
    ensures start + i * size + size <= start + j * size
    ensures 0 <= i * size
    decreases i + j
  {
    if i > 0 { Between(start, size, i - 1, i); }
    assert (j - 1) * size + size == j * size;
    if i < j - 1 { Between(start, size, i, j - 1); }
  }

  lemma DroppedFacts(pids: seq<int>, pid: int)
    requires Distinct(pids)
    ensures Distinct(Dropped(pids, pid)) && pid !in Dropped(pids, pid)
    ensures |Dropped(pids, pid)| == |pids| - if pid in pids then 1 else 0
    ensures forall q :: q != pid ==> (q in Dropped(pids, pid) <==> q in pids)
  {
    var i := Index(pids, pid);
    if i < |pids| {
      assert pids == pids[..i] + [pids[i]] + pids[i + 1..];
    }
  }

  /** An operation on behalf of `pid` leaves everybody else's mappings alone. */
  ghost predicate OthersKept(before: seq<Pool>, after: seq<Pool>, pid: int) {
    && |after| == |before|
    && forall k, q :: 0 <= k < |before| && q != pid ==>
         after[k].addr == before[k].addr && (q in after[k].pids <==> q in before[k].pids)
  }

  lemma AssignKeeps(pools: seq<Pool>, pid: int)
    requires PoolsOk(pools)
    ensures PoolsOk(Assign(pools, pid)) && OthersKept(pools, Assign(pools, pid), pid)
    ensures FirstFree(pools) < |pools| ==>
      pools[FirstFree(pools)].pids == [] && Assign(pools, pid)[FirstFree(pools)].pids == [pid]
  {
  }

  lemma ReferenceKeeps(pools: seq<Pool>, k: nat, pid: int)
    requires PoolsOk(pools) && k < |pools|
    ensures PoolsOk(Reference(pools, k, pid)) && OthersKept(pools, Reference(pools, k, pid), pid)
    ensures forall i :: 0 <= i < |pools| ==>
      (pid in Reference(pools, k, pid)[i].pids <==> pid in pools[i].pids || i == k)
  {
  }

  lemma FreeKeeps(pools: seq<Pool>, pid: int)
    requires PoolsOk(pools)
    ensures PoolsOk(Free(pools, pid)) && OthersKept(pools, Free(pools, pid), pid)
    ensures forall k :: 0 <= k < |pools| ==> pid !in Free(pools, pid)[k].pids
  {
    forall k | 0 <= k < |pools|
      ensures PoolOk(Free(pools, pid)[k]) && pid !in Free(pools, pid)[k].pids
      ensures forall q :: q != pid ==> (q in Free(pools, pid)[k].pids <==> q in pools[k].pids)
    {
      DroppedFacts(pools[k].pids, pid);
    }
  }

  // ---------- The allocator ----------

  /** check_mul_overflow and check_add_overflow on 64-bit operands. */
  predicate Overflows(x: int) {
    x >= U64
  }

  class MempoolAllocator {
    var entries: array<Pool>
    var sizeBytes: int

    constructor ()
      ensures fresh(entries) && entries.Length == 0
    {
      entries := new Pool[0];
      sizeBytes := 0;
    }

    ghost predicate Valid()
      reads this, entries
    {
      PoolsOk(entries[..])
    }

    /** `num` and `gb` are C ints, `start` an unsigned long; all arithmetic is modulo 2^64 where unchecked. */
    method InitMemoryAllocator(num: int, start: int, gb: int, allocOk: bool) returns (r: Result<()>)
      requires -0x8000_0000 <= num < 0x8000_0000 && -0x8000_0000 <= gb < 0x8000_0000 && 0 <= start < U64
      modifies this
      ensures r.Ok? <==> num > 0 && gb > 0 && start + num * (gb * GIB) < U64 && allocOk
      ensures r.Ok? ==> fresh(entries) && Valid() && entries.Length == num && sizeBytes == gb * GIB
      ensures r.Ok? ==> LaidOut(entries[..], start, sizeBytes)
      ensures r.Ok? ==> forall k :: 0 <= k < num ==> entries[k].pids == []
    {
      if num <= 0 { return Err(EINVAL); }
      if gb <= 0 { return Err(EINVAL); }
      sizeBytes := (gb * 1024 * 1024 * 1024) % U64;
      assert sizeBytes == gb * GIB;
      PositiveProduct(num, sizeBytes);
      if Overflows(num * sizeBytes) { return Err(EINVAL); }
      var total := num * sizeBytes;
      if Overflows(start + total) { return Err(EINVAL); }
      if !allocOk { return Err(ENOMEM); }
      var table := new Pool[num](_ => Pool(0, 0, []));
      entries := table;
      var addr := start;
      var i := 0;
      while i < num
        invariant 0 <= i <= num && entries == table && sizeBytes == gb * GIB
        invariant addr == start + i * sizeBytes
        invariant forall k :: 0 <= k < i ==> entries[k] == Pool(start + k * sizeBytes, 0, [])
        modifies table
      {
        Between(start, sizeBytes, i, num);
        entries[i] := Pool(addr, 0, []);
        assert (i + 1) * sizeBytes == i * sizeBytes + sizeBytes;
        addr := (addr + sizeBytes) % U64;
        i := i + 1;
      }
      r := Ok(());
    }

    /** Succeeds exactly when some pool has no mapper. */
    method AssignMemory(pid: int, allocOk: bool) returns (k: Option<nat>)
      modifies entries
      ensures k.Some? <==> allocOk && FirstFree(old(entries[..])) < entries.Length
      ensures k.Some? ==> k.value == FirstFree(old(entries[..])) && entries[..] == Assign(old(entries[..]), pid)
      ensures k.None? ==> entries[..] == old(entries[..])
    {
      if !allocOk { return None; }
      var i := 0;
      while i < entries.Length
        invariant 0 <= i <= entries.Length && entries[..] == old(entries[..])
        invariant forall j :: 0 <= j < i ==> entries[j].mappedNum != 0
      {
        if entries[i].mappedNum == 0 {
          entries[i] := Pool(entries[i].addr, 1, [pid] + entries[i].pids);
          return Some(i);
        }
        i := i + 1;
      }
      k := None;
    }

    method ReferenceMemory(k: nat, pid: int, allocOk: bool) returns (r: Result<()>)
      requires k < entries.Length
      modifies entries
      ensures allocOk ==> entries[..] == Reference(old(entries[..]), k, pid)
      ensures !allocOk ==> entries[..] == old(entries[..])
      ensures r == if !allocOk then Err(ENOMEM) else if pid in old(entries[k].pids) then Err(EEXIST) else Ok(())
    {
      if !allocOk { return Err(ENOMEM); }
      var j := 0;
      while j < |entries[k].pids|
        invariant 0 <= j <= |entries[k].pids| && pid !in entries[k].pids[..j]
        invariant entries[..] == old(entries[..])
      {
        if entries[k].pids[j] == pid { return Err(EEXIST); }
        j := j + 1;
      }
      entries[k] := Pool(entries[k].addr, entries[k].mappedNum + 1, [pid] + entries[k].pids);
      r := Ok(());
    }

    method FreeMemory(pid: int)
      modifies entries
      ensures entries[..] == Free(old(entries[..]), pid)
    {
      var i := 0;
      while i < entries.Length
        invariant 0 <= i <= entries.Length
        invariant forall k :: 0 <= k < i ==> entries[k] == Unmapped(old(entries[k]), pid)
        invariant forall k :: i <= k < entries.Length ==> entries[k] == old(entries[k])
      {
        var pids := entries[i].pids;
        var j := 0;
        while j < |pids| && pids[j] != pid
          invariant 0 <= j <= |pids| && pid !in pids[..j]
        {
          j := j + 1;
        }
        if j < |pids| {
          SameIndex(pids, pid, j);
          entries[i] := Pool(entries[i].addr, entries[i].mappedNum - 1, pids[..j] + pids[j + 1..]);
        }
        i := i + 1;
      }
    }
  }

  lemma PositiveProduct(a: int, b: int)
    requires a > 0 && b > 0
    ensures a * b > 0
  {
  }

  lemma SameIndex(pids: seq<int>, pid: int, j: nat)
    requires j < |pids| && pids[j] == pid && pid !in pids[..j]
    ensures Index(pids, pid) == j && pid in pids
  {
    var i := Index(pids, pid);
    assert forall m :: 0 <= m < j ==> pids[m] == pids[..j][m] && pids[m] != pid;
    assert forall m :: 0 <= m < i ==> pids[m] == pids[..i][m] && pids[m] != pid;
  }
}
