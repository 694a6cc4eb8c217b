// The alignment layer of the heap hook over a TLSF allocator that knows no alignment.
//
// Every block it hands out holds, in this order: padding, the address of the block itself in one
// machine word, and the user's data at an aligned address. The inner allocator is represented by its
// contract alone: its answers are parameters, and it may rewrite any memory that no live block owns.

module AlignedHeaps {
  import opened Base

  type Byte = x: int | 0 <= x < 256

  const U64: nat := 0x1_0000_0000_0000_0000
  const ISIZE_MAX: nat := 0x7FFF_FFFF_FFFF_FFFF
  const PTR_SIZE: nat := 8
  const PTR_ALIGN: nat := 8

  // ---------- Clearing low bits ----------

  function BitAnd(a: nat, b: nat): nat {
    if a == 0 || b == 0 then 0
    else 2 * BitAnd(a / 2, b / 2) + if a % 2 == 1 && b % 2 == 1 then 1 else 0
  }

  predicate PowerOfTwo(n: nat) {
    n == 1 || (n > 1 && n % 2 == 0 && PowerOfTwo(n / 2))
  }

  lemma {:induction false} AllOnes(x: nat, top: nat)
    requires PowerOfTwo(top) && x < top
    ensures BitAnd(x, top - 1) == x
  {
    if top > 1 {
      AllOnes(x / 2, top / 2);
      assert (top - 1) / 2 == top / 2 - 1;
    }
  }

  /** The quotient is unique. */
  lemma RemainderIs(x: int, d: int, q: int, r: int)
    requires d > 0 && 0 <= r < d && x == d * q + r
    ensures x / d == q && x % d == r
  {
    var k := x / d;
    assert d * (k - q) == r - x % d by { assert d * (k - q) == d * k - d * q; }
    SmallMultiple(d, k - q);
  }

  lemma SmallMultiple(d: int, e: int)
    requires d > 0
    ensures e >= 1 ==> d * e >= d
    ensures e <= -1 ==> d * e <= -d
  {
    if e >= 1 {
      assert d * e == d * (e - 1) + d;
    } else if e <= -1 {
      assert d * e == d * (e + 1) - d;
    }
  }

  lemma HalfRemainder(x: nat, m: nat)
    requires m > 0
    ensures x % (2 * m) == 2 * ((x / 2) % m) + x % 2
  {
    var q, r := (x / 2) / m, (x / 2) % m;
    assert 2 * (m * q) == (2 * m) * q;
    RemainderIs(x, 2 * m, q, 2 * r + x % 2);
  }

  lemma RoundedDown(x: nat, m: nat)
    requires m > 0
    ensures (x - x % m) % m == 0 && 0 <= x % m < m
  {
    RemainderIs(x - x % m, m, x / m, 0);
  }

  lemma EvenMask(x: nat, mask: nat)
    requires mask % 2 == 0
    ensures BitAnd(x, mask) == 2 * BitAnd(x / 2, mask / 2)
  {
  }

  /** Masking with !(align - 1) rounds down to a multiple of `align`. */
  lemma {:induction false} MaskRoundsDown(x: nat, top: nat, align: nat)
    requires PowerOfTwo(top) && PowerOfTwo(align) && align <= top && x < top
    ensures BitAnd(x, top - align) == x - x % align
    decreases align
  {
    if align == 1 {
      AllOnes(x, top);
    } else {
      hide BitAnd;
      assert top % 2 == 0 && align % 2 == 0;
      MaskRoundsDown(x / 2, top / 2, align / 2);
      hide PowerOfTwo;
      HalfMask(top, align);
      EvenMask(x, top - align);
      HalfRemainder(x, align / 2);
    }
  }

  lemma HalfMask(top: nat, align: nat)
    requires top % 2 == 0 && align % 2 == 0
    ensures (top - align) % 2 == 0 && (top - align) / 2 == top / 2 - align / 2 && 2 * (align / 2) == align
  {
  }

  lemma Twice(n: nat)
    requires PowerOfTwo(n)
    ensures PowerOfTwo(2 * n)
  {
  }

  lemma Times16(n: nat)
    requires PowerOfTwo(n)
    ensures PowerOfTwo(16 * n)
  {
    hide PowerOfTwo;
    Twice(n);
    Twice(2 * n);
    Twice(4 * n);
    Twice(8 * n);
  }

  lemma Times256(n: nat)
    requires PowerOfTwo(n)
    ensures PowerOfTwo(256 * n)
  {
    hide PowerOfTwo;
    Times16(n);
    Times16(16 * n);
  }

  lemma WordIsPowerOfTwo()
    ensures PowerOfTwo(U64)
  {
    assert PowerOfTwo(1);
    hide PowerOfTwo;
    Times256(1);
    Times256(0x100);
    Times256(0x1_0000);
    Times256(0x100_0000);
    Times256(0x1_0000_0000);
    Times256(0x100_0000_0000);
    Times256(0x1_0000_0000_0000);
    Times256(0x100_0000_0000_0000);
  }

  /** The user's address in a block at `block`; in 64 bits, !(align - 1) is 2^64 - align. */
  function AlignedAddr(block: nat, align: nat): nat
    requires 0 < align <= U64
  {
    BitAnd(block + PTR_SIZE + align - 1, U64 - align)
  }

  lemma AlignedAddrFits(block: nat, align: nat)
    requires PowerOfTwo(align) && 0 < align <= U64 && block + PTR_SIZE + align - 1 < U64
    ensures var addr := AlignedAddr(block, align);
      addr % align == 0 && block + PTR_SIZE <= addr < block + PTR_SIZE + align
  {
    hide BitAnd, PowerOfTwo;
    var x := block + PTR_SIZE + align - 1;
    WordIsPowerOfTwo();
    MaskRoundsDown(x, U64, align);
    RoundedDown(x, align);
  }

  // ---------- Words in memory ----------

  /** Little-endian, `n` bytes. */
  function Encode(v: nat, n: nat): (s: seq<Byte>)
    ensures |s| == n
  {
    if n == 0 then [] else [v % 256] + Encode(v / 256, n - 1)
  }

  function Decode(s: seq<Byte>): nat {
    if s == [] then 0 else s[0] + 256 * Decode(s[1..])
  }

  function Radix(n: nat): nat {
    if n == 0 then 1 else 256 * Radix(n - 1)
  }

  lemma {:induction false} WordRoundTrip(v: nat, n: nat)
    requires v < Radix(n)
    ensures Decode(Encode(v, n)) == v
  {
    if n > 0 {
      WordRoundTrip(v / 256, n - 1);
      assert Encode(v, n)[1..] == Encode(v / 256, n - 1);
    }
  }

  lemma PointerRoundTrip(v: nat)
    requires v < U64
    ensures Decode(Encode(v, PTR_SIZE)) == v
  {
    assert Radix(4) == 0x1_0000_0000;
    assert Radix(8) == U64;
    WordRoundTrip(v, PTR_SIZE);
  }

  function Patched(mem: seq<Byte>, at: nat, s: seq<Byte>): (r: seq<Byte>)
    requires at + |s| <= |mem|
    ensures |r| == |mem|
    ensures forall i :: 0 <= i < |r| ==> r[i] == if at <= i < at + |s| then s[i - at] else mem[i]
  {
    mem[..at] + s + mem[at + |s|..]
  }

  lemma PatchedIs(mem: seq<Byte>, after: seq<Byte>, at: nat, s: seq<Byte>)
    requires at + |s| <= |mem| == |after|
    requires forall i :: 0 <= i < |mem| ==> after[i] == if at <= i < at + |s| then s[i - at] else mem[i]
    ensures after == Patched(mem, at, s)
  {
  }

  /** Pool memory that starts at address `base`. */
  datatype Memory = Memory(base: nat, bytes: seq<Byte>) {

    predicate Spans(addr: int, n: nat) {
      base <= addr && addr + n <= base + |bytes|
    }

    function Read(addr: int, n: nat): (s: seq<Byte>)
      requires Spans(addr, n)
      ensures |s| == n && forall i :: 0 <= i < n ==> s[i] == bytes[addr - base + i]
    {
      bytes[addr - base..addr - base + n]
    }

    function Write(addr: int, s: seq<Byte>): (m: Memory)
      requires Spans(addr, |s|)
      ensures m.base == base && |m.bytes| == |bytes|
    {
      Memory(base, Patched(bytes, addr - base, s))
    }
  }

  lemma ReadWritten(m: Memory, addr: int, s: seq<Byte>)
    requires m.Spans(addr, |s|)
    ensures m.Write(addr, s).Read(addr, |s|) == s
  {
  }

  lemma ReadElsewhere(m: Memory, addr: int, s: seq<Byte>, a: int, n: nat)
    requires m.Spans(addr, |s|) && m.Spans(a, n) && (a + n <= addr || addr + |s| <= a)
    ensures m.Write(addr, s).Read(a, n) == m.Read(a, n)
  {
  }

  lemma ReadWithin(m: Memory, u: Memory, a: int, n: nat, b: int, addr: nat, len: nat)
    requires m.Spans(a, n) && u.Spans(b, n) && m.Read(a, n) == u.Read(b, n) && addr + len <= n
    ensures m.Spans(a + addr, len) && u.Spans(b + addr, len)
    ensures m.Read(a + addr, len) == u.Read(b + addr, len)
  {
    assert m.Read(a + addr, len) == m.Read(a, n)[addr..addr + len];
    assert u.Read(b + addr, len) == u.Read(b, n)[addr..addr + len];
  }

  // ---------- Blocks and users ----------

  predicate Apart(a: int, n: nat, b: int, m: nat) {
    a + n <= b || b + m <= a
  }

  /** Live blocks of the inner allocator, by address and size. */
  ghost predicate BlocksOk(m: Memory, live: map<int, nat>) {
    && (forall a :: a in live ==> m.Spans(a, live[a]))
    && (forall a, b :: a in live && b in live && a != b ==> Apart(a, live[a], b, live[b]))
  }

  /** A range the inner allocator may hand out. */
  ghost predicate Available(m: Memory, live: map<int, nat>, a: int, n: nat) {
    m.Spans(a, n) && a !in live && forall b :: b in live ==> Apart(a, n, b, live[b])
  }

  ghost predicate Keeps(m: Memory, u: Memory, live: map<int, nat>) {
    && u.base == m.base && |u.bytes| == |m.bytes|
    && forall a :: a in live && m.Spans(a, live[a]) ==> u.Read(a, live[a]) == m.Read(a, live[a])
  }

  /** The block that the word in front of a user's address names. */
  function Owner(m: Memory, p: int): nat
    requires m.Spans(p - PTR_SIZE, PTR_SIZE)
  {
    Decode(m.Read(p - PTR_SIZE, PTR_SIZE))
  }

  /** The back-pointer word and the data of a user lie inside the live block that the word names. */
  ghost predicate UserOk(m: Memory, live: map<int, nat>, p: int, size: nat) {
    && m.Spans(p - PTR_SIZE, PTR_SIZE)
    && var o := Owner(m, p);
       o in live && o + PTR_SIZE <= p && p + size <= o + live[o]
  }

  /** Every user has a block of its own, and every block a user. */
  ghost predicate UsersOk(m: Memory, live: map<int, nat>, users: map<int, nat>) {
    && (forall p :: p in users ==> UserOk(m, live, p, users[p]))
    && (forall p, q :: p in users && q in users && Owner(m, p) == Owner(m, q) ==> p == q)
    && (forall a :: a in live ==> exists p :: p in users && Owner(m, p) == a)
  }

  ghost predicate HeapOk(m: Memory, live: map<int, nat>, users: map<int, nat>) {
    BlocksOk(m, live) && UsersOk(m, live, users)
  }

  function Data(m: Memory, p: int, size: nat): seq<Byte>
    requires m.Spans(p, size)
  {
    m.Read(p, size)
  }

  lemma UserFacts(m: Memory, live: map<int, nat>, users: map<int, nat>, p: int)
    requires HeapOk(m, live, users) && p in users
    ensures UserOk(m, live, p, users[p]) && m.Spans(Owner(m, p), live[Owner(m, p)]) && m.Spans(p, users[p])
  {
  }

  /** Two users never share a byte, back-pointers included. */
  lemma UsersApart(m: Memory, live: map<int, nat>, users: map<int, nat>, p: int, q: int)
    requires HeapOk(m, live, users) && p in users && q in users && p != q
    ensures Apart(p - PTR_SIZE, PTR_SIZE + users[p], q - PTR_SIZE, PTR_SIZE + users[q])
  {
    hide Decode;
    UserFacts(m, live, users, p);
    UserFacts(m, live, users, q);
    assert Apart(Owner(m, p), live[Owner(m, p)], Owner(m, q), live[Owner(m, q)]);
  }

  // ---------- The inner allocator's contract ----------

  /** What an inner call returned, and the whole pool afterwards. */
  datatype Answer = Answer(block: Option<int>, bytes: seq<Byte>)

  ghost predicate AllocateContract(m: Memory, live: map<int, nat>, size: nat, a: Answer) {
    && Keeps(m, Memory(m.base, a.bytes), live)
    && (a.block.Some? ==> Available(m, live, a.block.value, size))
  }

  /** On success the old block is gone and its bytes moved, as many as fit; on failure nothing happened. */
  ghost predicate ReallocateContract(m: Memory, live: map<int, nat>, o: int, size: nat, a: Answer) {
    && |a.bytes| == |m.bytes| && o in live && m.Spans(o, live[o])
    && if a.block.None? then Keeps(m, Memory(m.base, a.bytes), live)
       else
         && Keeps(m, Memory(m.base, a.bytes), live - {o})
         && Available(m, live - {o}, a.block.value, size)
         && Memory(m.base, a.bytes).Read(a.block.value, Min(size, live[o])) == m.Read(o, Min(size, live[o]))
  }

  ghost predicate DeallocateContract(m: Memory, live: map<int, nat>, o: int, bytes: seq<Byte>) {
    Keeps(m, Memory(m.base, bytes), live - {o})
  }

  // ---------- What the operations keep ----------

  ghost predicate DataKept(m: Memory, u: Memory, users: map<int, nat>) {
    forall p :: p in users ==>
      m.Spans(p, users[p]) && u.Spans(p, users[p]) && Data(u, p, users[p]) == Data(m, p, users[p])
  }

  lemma DataKeptTwice(m: Memory, u: Memory, v: Memory, users: map<int, nat>)
    requires DataKept(m, u, users) && DataKept(u, v, users)
    ensures DataKept(m, v, users)
  {
  }

  lemma KeptUser(m: Memory, u: Memory, live: map<int, nat>, users: map<int, nat>, p: int)
    requires HeapOk(m, live, users) && Keeps(m, u, live) && p in users
    ensures m.Spans(p, users[p]) && u.Spans(p, users[p]) && Data(u, p, users[p]) == Data(m, p, users[p])
    ensures m.Spans(p - PTR_SIZE, PTR_SIZE) && u.Spans(p - PTR_SIZE, PTR_SIZE)
    ensures UserOk(u, live, p, users[p]) && Owner(u, p) == Owner(m, p)
  {
    hide Decode;
    UserFacts(m, live, users, p);
    var o := Owner(m, p);
    ReadWithin(u, m, o, live[o], o, p - PTR_SIZE - o, PTR_SIZE);
    ReadWithin(u, m, o, live[o], o, p - o, users[p]);
  }

  lemma KeptHeap(m: Memory, u: Memory, live: map<int, nat>, users: map<int, nat>)
    requires HeapOk(m, live, users) && Keeps(m, u, live)
    ensures HeapOk(u, live, users) && DataKept(m, u, users)
  {
    hide UserOk, Owner, Data;
    forall p | p in users
      ensures m.Spans(p, users[p]) && u.Spans(p, users[p]) && Data(u, p, users[p]) == Data(m, p, users[p])
      ensures m.Spans(p - PTR_SIZE, PTR_SIZE) && u.Spans(p - PTR_SIZE, PTR_SIZE)
      ensures UserOk(u, live, p, users[p]) && Owner(u, p) == Owner(m, p)
    {
      KeptUser(m, u, live, users, p);
    }
  }

  /** A write inside a user's own data leaves the heap as it was, the back-pointer word included. */
  lemma OwnWrite(m: Memory, live: map<int, nat>, users: map<int, nat>, p: int, at: nat, data: seq<Byte>)
    requires HeapOk(m, live, users) && p in users && at + |data| <= users[p] && m.Spans(p + at, |data|)
    ensures var u := m.Write(p + at, data);
      && HeapOk(u, live, users) && DataKept(m, u, users - {p})
      && m.Spans(p, users[p]) && u.Read(p, users[p]) == Patched(m.Read(p, users[p]), at, data)
  {
    hide HeapOk, Keeps, Decode;
    UserFacts(m, live, users, p);
    var u, o, size := m.Write(p + at, data), Owner(m, p), users[p];
    var n := live[o];
    UserLeaves(m, live, users, p);
    OwnBlockAvailable(m, live, users, p);
    WriteKeeps(m, live - {o}, o, n, p + at, data);
    KeptHeap(m, u, live - {o}, users - {p});
    ReadElsewhere(m, p + at, data, p - PTR_SIZE, PTR_SIZE);
    UserJoins(u, live - {o}, users - {p}, o, n, p, size);
    assert (live - {o})[o := n] == live && (users - {p})[p := size] == users;
    PatchedIs(m.Read(p, size), u.Read(p, size), at, data);
  }

  lemma OwnBlockAvailable(m: Memory, live: map<int, nat>, users: map<int, nat>, p: int)
    requires HeapOk(m, live, users) && p in users
    ensures UserOk(m, live, p, users[p]) && Available(m, live - {Owner(m, p)}, Owner(m, p), live[Owner(m, p)])
  {
    hide Decode;
  }

  lemma UserLeaves(m: Memory, live: map<int, nat>, users: map<int, nat>, p: int)
    requires HeapOk(m, live, users) && p in users
    ensures Owner(m, p) in live && HeapOk(m, live - {Owner(m, p)}, users - {p})
  {
    hide Decode;
    var o := Owner(m, p);
    forall q | q in users - {p} ensures UserOk(m, live - {o}, q, users[q]) {
      assert UserOk(m, live, q, users[q]);
    }
  }

  lemma UserJoins(m: Memory, live: map<int, nat>, users: map<int, nat>, o: int, n: nat, p: int, size: nat)
    requires HeapOk(m, live, users) && Available(m, live, o, n)
    requires m.Spans(p - PTR_SIZE, PTR_SIZE) && Owner(m, p) == o
    requires o + PTR_SIZE <= p && p + size <= o + n
    ensures p !in users && HeapOk(m, live[o := n], users[p := size])
  {
    hide Decode;
    assert p !in users;
    forall q | q in users ensures UserOk(m, live[o := n], q, users[q]) && Owner(m, q) in live {
      assert UserOk(m, live, q, users[q]);
    }
  }

  /** Writing inside an available range disturbs no live block. */
  lemma WriteKeeps(m: Memory, live: map<int, nat>, o: int, n: nat, addr: int, s: seq<Byte>)
    requires Available(m, live, o, n) && o <= addr && addr + |s| <= o + n
    ensures Keeps(m, m.Write(addr, s), live) && Available(m.Write(addr, s), live, o, n)
  {
    forall a | a in live && m.Spans(a, live[a])
      ensures m.Write(addr, s).Read(a, live[a]) == m.Read(a, live[a])
    {
      ReadElsewhere(m, addr, s, a, live[a]);
    }
  }

  // ---------- The layer ----------

  /** What core::alloc::Layout guarantees. */
  datatype Layout = Layout(size: nat, align: nat) {
    ghost predicate Valid() {
      PowerOfTwo(align) && size + align - 1 <= ISIZE_MAX
    }
  }

  function WordAligned(align: nat): nat {
    Max(align, PTR_ALIGN)
  }

  lemma WordAlignedFacts(l: Layout)
    requires l.Valid()
    ensures PowerOfTwo(WordAligned(l.align)) && PTR_ALIGN <= WordAligned(l.align)
    ensures PTR_SIZE + l.size + WordAligned(l.align) < U64
    ensures forall addr: nat :: addr % WordAligned(l.align) == 0 ==> addr % l.align == 0
  {
    hide PowerOfTwo;
    SmallPowers(l.align);
    forall addr: nat | addr % WordAligned(l.align) == 0 ensures addr % l.align == 0 {
      if l.align < PTR_ALIGN {
        MultipleOfEight(addr, l.align);
      }
    }
  }

  lemma MultipleOfEight(addr: nat, d: nat)
    requires addr % 8 == 0 && (d == 1 || d == 2 || d == 4)
    ensures addr % d == 0
  {
    var k := addr / 8;
    assert addr == 8 * k;
    if d == 2 {
      assert addr == 2 * (4 * k);
    } else if d == 4 {
      assert addr == 4 * (2 * k);
    }
  }

  lemma SmallPowers(n: nat)
    requires PowerOfTwo(n)
    ensures PowerOfTwo(8) && 0 < n && (n < 8 ==> n == 1 || n == 2 || n == 4)
  {
    assert PowerOfTwo(6) == PowerOfTwo(3);
    assert !PowerOfTwo(3);
  }

  /** What the layer asks of the inner allocator; a reallocation also has to hold the data at its old offset. */
  function Internal(l: Layout, oldOffset: int): (n: nat) {
    Max(PTR_SIZE + l.size + WordAligned(l.align), oldOffset + l.size)
  }

  /** The first `k` bytes at `p` before are the first `k` bytes at `q` after. */
  ghost predicate SameStart(before: Memory, p: int, after: Memory, q: int, k: nat) {
    before.Spans(p, k) && after.Spans(q, k) && Data(after, q, k) == Data(before, p, k)
  }

  class AlignedHeap {
    const base: nat
    const bytes: array<Byte>
    var live: map<int, nat>
    ghost var users: map<int, nat>

    constructor (start: nat, length: nat)
      requires 0 < start && start + length <= ISIZE_MAX
      ensures Valid() && users == map[] && fresh(bytes)
    {
      base, live, users := start, map[], map[];
      bytes := new Byte[length];
    }

    ghost function View(): Memory
      reads this, bytes
    {
      Memory(base, bytes[..])
    }

    ghost predicate Valid()
      reads this, bytes
    {
      0 < base && base + bytes.Length <= ISIZE_MAX && HeapOk(View(), live, users)
    }

    // ---------- Raw accesses, each inside a given block ----------

    ghost predicate Inside(o: int, n: nat, addr: int, len: nat)
      reads this
    {
      && o <= addr && addr + len <= o + n
      && base <= o && o + n <= base + bytes.Length
    }

    method ReadPointer(ghost o: int, ghost n: nat, addr: int) returns (v: nat)
      requires Inside(o, n, addr, PTR_SIZE)
      ensures v == Decode(View().Read(addr, PTR_SIZE))
    {
      v := Decode(bytes[addr - base..addr - base + PTR_SIZE]);
    }

    method WritePointer(ghost o: int, ghost n: nat, addr: int, v: nat)
      requires Inside(o, n, addr, PTR_SIZE) && v < U64
      modifies bytes
      ensures View() == old(View()).Write(addr, Encode(v, PTR_SIZE))
    {
      var word := Encode(v, PTR_SIZE);
      forall i | 0 <= i < PTR_SIZE {
        bytes[addr - base + i] := word[i];
      }
      PatchedIs(old(bytes[..]), bytes[..], addr - base, word);
    }

    /** ptr::copy, which allows the ranges to overlap. */
    method Copy(ghost o: int, ghost n: nat, from: int, to: int, len: nat)
      requires Inside(o, n, from, len) && Inside(o, n, to, len)
      modifies bytes
      ensures View() == old(View()).Write(to, old(View()).Read(from, len))
    {
      hide Patched;
      var moved := bytes[from - base..from - base + len];
      assert moved == View().Read(from, len);
      forall i | 0 <= i < len {
        bytes[to - base + i] := moved[i];
      }
      PatchedIs(old(bytes[..]), bytes[..], to - base, moved);
    }

    /** The inner allocator left the pool like this. */
    method Rewrite(after: seq<Byte>)
      requires |after| == bytes.Length
      modifies bytes
      ensures View() == Memory(base, after)
    {
      forall i | 0 <= i < bytes.Length {
        bytes[i] := after[i];
      }
      assert bytes[..] == after;
    }

    // ---------- Operations ----------

    method Allocate(layout: Layout, answer: Answer) returns (r: Option<int>)
      requires Valid() && layout.Valid()
      requires AllocateContract(View(), live, Internal(layout, 0), answer)
      modifies this, bytes
      ensures Valid() && DataKept(old(View()), View(), old(users))
      ensures r.Some? <==> answer.block.Some? && Internal(layout, 0) <= ISIZE_MAX
      ensures r.Some? ==> r.value % layout.align == 0 && r.value != 0 && r.value !in old(users)
      ensures users == if r.Some? then old(users)[r.value := layout.size] else old(users)
    {
      hide HeapOk, PowerOfTwo, Keeps, Decode, Encode, AlignedAddr, WordAligned, DataKept;
      ghost var m0 := View();
      WordAlignedFacts(layout);
      KeepsItself(m0, live);
      KeptHeap(m0, m0, live, users);
      var align := WordAligned(layout.align);
      var internal := PTR_SIZE + layout.size + align;
      if internal > ISIZE_MAX { return None; }
      ReplySize(m0, live, answer.bytes);
      Rewrite(answer.bytes);
      ghost var m1 := View();
      KeptHeap(m0, m1, live, users);
      if answer.block.None? { return None; }
      var original := answer.block.value;
      AlignedAddrFits(original, align);
      var p := AlignedAddr(original, align);
      HandOut(original, internal, p, layout.size);
      KeptHeap(m1, View(), old(live), old(users));
      DataKeptTwice(m0, m1, View(), old(users));
      r := Some(p);
    }

    /** Stores the original pointer in front of the user's address. */
    method HandOut(original: int, internal: nat, p: int, ghost size: nat)
      requires Valid() && Available(View(), live, original, internal)
      requires original + PTR_SIZE <= p && p + size <= original + internal
      modifies this, bytes
      ensures Valid() && Keeps(old(View()), View(), old(live))
      ensures View() == old(View()).Write(p - PTR_SIZE, Encode(original, PTR_SIZE))
      ensures Owner(View(), p) == original && live == old(live)[original := internal]
      ensures p !in old(users) && users == old(users)[p := size]
    {
      hide HeapOk, Keeps, Decode, Encode;
      WritePointer(original, internal, p - PTR_SIZE, original);
      ghost var m, word := old(View()), Encode(original, PTR_SIZE);
      WriteKeeps(m, live, original, internal, p - PTR_SIZE, word);
      KeptHeap(m, View(), live, users);
      ReadWritten(m, p - PTR_SIZE, word);
      PointerRoundTrip(original);
      UserJoins(View(), live, users, original, internal, p, size);
      live := live[original := internal];
      users := users[p := size];
    }

    method Reallocate(p: int, layout: Layout, answer: Answer) returns (r: Option<int>)
      requires Valid() && layout.Valid() && p in users
      requires ReallocateContract(View(), live, Owner(View(), p), Internal(layout, p - Owner(View(), p)), answer)
      modifies this, bytes
      ensures Valid()
      ensures r.Some? <==> answer.block.Some? && Internal(layout, p - Owner(old(View()), p)) <= ISIZE_MAX
      ensures r.None? ==> users == old(users) && DataKept(old(View()), View(), users)
      ensures r.Some? ==>
        && r.value % layout.align == 0 && r.value != 0 && r.value !in old(users) - {p}
        && users == (old(users) - {p})[r.value := layout.size]
        && DataKept(old(View()), View(), old(users) - {p})
        && SameStart(old(View()), p, View(), r.value, Min(old(users)[p], layout.size))
    {
      hide HeapOk, PowerOfTwo, Keeps, Decode, Encode, WordAligned, DataKept, SameStart, Available, Owner;
      ghost var m0, k := View(), Min(users[p], layout.size);
      UserFacts(m0, live, users, p);
      WordAlignedFacts(layout);
      var align := WordAligned(layout.align);
      var oldOriginal := ReadOwner(p);
      var oldOffset := p - oldOriginal;
      var internal := Max(PTR_SIZE + layout.size + align, oldOffset + layout.size);
      KeepsItself(m0, live);
      KeptHeap(m0, m0, live, users);
      if internal > ISIZE_MAX { return None; }
      Rewrite(answer.bytes);
      ghost var m1 := View();
      if answer.block.None? {
        KeptHeap(m0, m1, live, users);
        return None;
      }
      var original := answer.block.value;
      UserLeaves(m0, live, users, p);
      MovedBlock(m0, live, oldOriginal, internal, answer, oldOffset, k);
      live, users := live - {oldOriginal}, users - {p};
      KeptHeap(m0, m1, live, users);
      StillAvailable(m0, m1, live, original, internal);
      var moved := Settle(original, internal, oldOffset, align, layout.size, k);
      DataKeptTwice(m0, m1, View(), old(users) - {p});
      ShiftedData(m0, p, m1, original + oldOffset, View(), moved, k, k);
      r := Some(moved);
    }

    /** The original pointer of a user. */
    method ReadOwner(p: int) returns (o: nat)
      requires Valid() && p in users
      ensures UserOk(View(), live, p, users[p]) && o == Owner(View(), p)
    {
      hide HeapOk, Decode;
      UserFacts(View(), live, users, p);
      ghost var block := Owner(View(), p);
      o := ReadPointer(block, live[block], p - PTR_SIZE);
    }

    /** The half of a reallocation that follows the inner one: realign, move the data, store the pointer. */
    method Settle(original: int, internal: nat, oldOffset: nat, align: nat, size: nat, ghost k: nat)
      returns (moved: int)
      requires Valid() && Available(View(), live, original, internal) && k <= size && internal <= ISIZE_MAX
      requires PowerOfTwo(align) && PTR_ALIGN <= align <= U64
      requires PTR_SIZE + size + align <= internal && oldOffset + size <= internal
      modifies this, bytes
      ensures Valid() && DataKept(old(View()), View(), old(users))
      ensures moved % align == 0 && moved > 0 && moved !in old(users) && users == old(users)[moved := size]
      ensures SameStart(old(View()), original + oldOffset, View(), moved, k)
    {
      hide HeapOk, PowerOfTwo, Keeps, Decode, Encode, AlignedAddr, DataKept, SameStart, Owner;
      ghost var m1 := View();
      AlignedAddrFits(original, align);
      moved := AlignedAddr(original, align);
      Shift(original, internal, original + oldOffset, moved, size);
      ghost var m2 := View();
      KeptHeap(m1, m2, live, users);
      HandOut(original, internal, moved, size);
      KeptHeap(m2, View(), old(live), old(users));
      DataKeptTwice(m1, m2, View(), old(users));
      ShiftedData(m1, original + oldOffset, m1, original + oldOffset, m2, moved, k, size)
        by { SameStartSelf(m1, original + oldOffset, k); }
      DataBehindPointer(m2, View(), moved, original, k);
      ShiftedData(m1, original + oldOffset, m2, moved, View(), moved, k, k);
    }

    /** Moves the data inside its new block when the aligned offset changed. */
    method Shift(ghost original: int, ghost internal: nat, from: int, to: int, size: nat)
      requires Valid() && Available(View(), live, original, internal)
      requires original <= from && from + size <= original + internal
      requires original <= to && to + size <= original + internal
      modifies bytes
      ensures Valid() && Keeps(old(View()), View(), live) && Available(View(), live, original, internal)
      ensures SameStart(old(View()), from, View(), to, size)
    {
      hide HeapOk, Keeps;
      ghost var m := View();
      KeepsItself(m, live);
      if from != to {
        Copy(original, internal, from, to, size);
        WriteKeeps(m, live, original, internal, to, m.Read(from, size));
        KeptHeap(m, View(), live, users);
        ReadWritten(m, to, m.Read(from, size));
      }
    }

    /** A user stores into its own allocation. */
    method WriteData(p: int, at: nat, data: seq<Byte>)
      requires Valid() && p in users && at + |data| <= users[p]
      modifies bytes
      ensures Valid() && DataKept(old(View()), View(), users - {p})
      ensures UserOk(old(View()), live, p, users[p]) && UserOk(View(), live, p, users[p])
      ensures Data(View(), p, users[p]) == Patched(Data(old(View()), p, users[p]), at, data)
    {
      hide HeapOk, Keeps, Decode, Owner, DataKept;
      ghost var m := View();
      UserFacts(m, live, users, p);
      forall i | 0 <= i < |data| {
        bytes[p + at - base + i] := data[i];
      }
      PatchedIs(m.bytes, bytes[..], p + at - base, data);
      assert View() == m.Write(p + at, data);
      OwnWrite(m, live, users, p, at, data);
      UserFacts(View(), live, users, p);
    }

    method Deallocate(p: int, after: seq<Byte>)
      requires Valid() && p in users
      requires DeallocateContract(View(), live, Owner(View(), p), after)
      modifies this, bytes
      ensures Valid() && users == old(users) - {p} && live == old(live) - {Owner(old(View()), p)}
      ensures DataKept(old(View()), View(), users)
    {
      hide HeapOk, Keeps, Decode, DataKept, Owner;
      ghost var m0 := View();
      var original := ReadOwner(p);
      UserLeaves(m0, live, users, p);
      live, users := live - {original}, users - {p};
      ReplySize(m0, live, after);
      KeptHeap(m0, Memory(base, after), live, users);
      Rewrite(after);
    }
  }

  lemma SameStartSelf(m: Memory, p: int, k: nat)
    requires m.Spans(p, k)
    ensures SameStart(m, p, m, p, k)
  {
  }

  lemma StillAvailable(m: Memory, u: Memory, live: map<int, nat>, o: int, n: nat)
    requires Available(m, live, o, n) && u.base == m.base && |u.bytes| == |m.bytes|
    ensures Available(u, live, o, n) && o + n <= m.base + |m.bytes| && m.base <= o
  {
  }

  /** Where the old data sits after the inner reallocation: at its old offset in the new block. */
  lemma MovedBlock(m: Memory, live: map<int, nat>, o: int, size: nat, a: Answer, offset: nat, k: nat)
    requires ReallocateContract(m, live, o, size, a) && a.block.Some? && offset + k <= Min(size, live[o])
    ensures SameStart(m, o + offset, Memory(m.base, a.bytes), a.block.value + offset, k)
  {
    var n := Min(size, live[o]);
    ReadWithin(m, Memory(m.base, a.bytes), o, n, a.block.value, offset, k);
  }

  lemma ShiftedData(m0: Memory, p: int, m1: Memory, q: int, m2: Memory, r: int, k: nat, n: nat)
    requires SameStart(m0, p, m1, q, k) && SameStart(m1, q, m2, r, n) && k <= n
    ensures SameStart(m0, p, m2, r, k)
  {
    ReadWithin(m1, m2, q, n, r, 0, k);
  }

  lemma DataBehindPointer(m: Memory, u: Memory, p: int, original: nat, k: nat)
    requires m.Spans(p - PTR_SIZE, PTR_SIZE + k)
    requires u == m.Write(p - PTR_SIZE, Encode(original, PTR_SIZE))
    ensures SameStart(m, p, u, p, k)
  {
    ReadElsewhere(m, p - PTR_SIZE, Encode(original, PTR_SIZE), p, k);
  }

  lemma KeepsItself(m: Memory, live: map<int, nat>)
    ensures Keeps(m, m, live)
  {
  }

  lemma ReplySize(m: Memory, live: map<int, nat>, bytes: seq<Byte>)
    requires Keeps(m, Memory(m.base, bytes), live)
    ensures |bytes| == |m.bytes|
  {
  }
}
