// What the calls on a topic hand out, reclaim and wake, in terms of the messages and the subscribers.

module Answers {
  import opened Base
  import opened Seqs
  import opened Sets
  import opened TopicModel
  import opened StoreInvariant
  import opened DomainRules
  import opened NotifyLists
  import opened Mempools
  import opened KernelModel
  import opened KernelInvariant
  import opened ProcessInvariant
  import opened Lifetime
  import opened DeliveryOrder
  import opened Delivery

  // ---------- Ranks in an ascending sequence ----------

  function NotOlderThan(c: set<Entry>, id: int): set<Entry> {
    set e | e in c && id <= e.id
  }

  function NotNewerThan(c: set<Entry>, id: int): set<Entry> {
    set e | e in c && e.id <= id
  }

  lemma AscendingDistinct(es: seq<Entry>)
    requires Ascending(es)
    ensures Distinct(es)
  {
    forall i, j | 0 <= i < j < |es| ensures es[i] != es[j] {
      assert es[i].id < es[j].id;
    }
  }

  lemma RankFromStart(es: seq<Entry>, all: set<Entry>, i: nat)
    requires Ascending(es) && i < |es| && forall e :: e in es <==> e in all
    ensures |NotNewerThan(all, es[i].id)| == i + 1
  {
    var first := es[..i + 1];
    AscendingDistinct(first);
    DistinctCardinality(first);
    forall e ensures e in first <==> e in NotNewerThan(all, es[i].id) {
      if e in es {
        var j :| 0 <= j < |es| && es[j] == e;
        if j <= i { assert first[j] == e; }
      }
    }
    assert NotNewerThan(all, es[i].id) == set e | e in first;
  }

  lemma RankFromEnd(es: seq<Entry>, all: set<Entry>, i: nat)
    requires Ascending(es) && i < |es| && forall e :: e in es <==> e in all
    ensures |NotOlderThan(all, es[i].id)| == |es| - i
  {
    var last := es[i..];
    AscendingDistinct(last);
    DistinctCardinality(last);
    forall e ensures e in last <==> e in NotOlderThan(all, es[i].id) {
      if e in es {
        var j :| 0 <= j < |es| && es[j] == e;
        if i <= j { assert last[j - i] == e; }
      }
    }
    assert NotOlderThan(all, es[i].id) == set e | e in last;
  }

  /** The first `n` of an ascending sequence, by rank. */
  lemma PrefixByRank(es: seq<Entry>, all: set<Entry>, n: nat)
    requires Ascending(es) && forall e :: e in es <==> e in all
    ensures forall e :: e in es[..Min(n, |es|)] <==> e in all && |NotNewerThan(all, e.id)| <= n
    ensures |es| > n <==> exists e :: e in all && |NotNewerThan(all, e.id)| > n
  {
    hide NotNewerThan, Ascending;
    var first := es[..Min(n, |es|)];
    forall e | e in all ensures e in first <==> |NotNewerThan(all, e.id)| <= n {
      var i :| 0 <= i < |es| && es[i] == e;
      RankFromStart(es, all, i);
      if i < n {
        assert first[i] == e;
      }
      if e in first {
        var j :| 0 <= j < |first| && first[j] == e;
        RankFromStart(es, all, j);
      }
    }
    if |es| > n {
      RankFromStart(es, all, n);
      assert es[n] in all;
    }
    if e :| e in all && |NotNewerThan(all, e.id)| > n {
      var i :| 0 <= i < |es| && es[i] == e;
      RankFromStart(es, all, i);
    }
  }

  /** The last `n` of an ascending sequence, by rank. */
  lemma SuffixByRank(es: seq<Entry>, all: set<Entry>, n: nat)
    requires Ascending(es) && forall e :: e in es <==> e in all
    ensures forall e :: e in es[|es| - Min(n, |es|)..] <==> e in all && |NotOlderThan(all, e.id)| <= n
  {
    hide NotOlderThan, Ascending;
    var skip := |es| - Min(n, |es|);
    var last := es[skip..];
    forall e | e in all ensures e in last <==> |NotOlderThan(all, e.id)| <= n {
      var i :| 0 <= i < |es| && es[i] == e;
      RankFromEnd(es, all, i);
      if skip <= i {
        assert last[i - skip] == e;
      }
      if e in last {
        var j :| 0 <= j < |last| && last[j] == e;
        RankFromEnd(es, all, skip + j);
      }
    }
  }

  // ---------- Candidates ----------

  /** The stored messages from id `floor` on that may be delivered to `q`. */
  ghost function Candidates(w: World, t: Topic, q: Subscriber, floor: int): set<Entry> {
    set e | e in t.entries && floor <= e.id && Deliverable(w, t, q, e)
  }

  /** The newest `depth` of the candidates. */
  ghost function Reach(c: set<Entry>, depth: nat): set<Entry> {
    set e | e in c && |NotOlderThan(c, e.id)| <= depth
  }

  lemma NewestIsReach(w: World, t: Topic, q: Subscriber, floor: int)
    requires Ascending(t.entries)
    ensures Ascending(Newest(w, t, q, floor))
    ensures forall e :: e in Newest(w, t, q, floor) <==> e in Reach(Candidates(w, t, q, floor), q.depth)
  {
    hide Filter, Deliverable, NotOlderThan;
    var f, c := Wanted(w, t, q, floor), Candidates(w, t, q, floor);
    var d := Filter(t.entries, f);
    FilterAscending(t.entries, f);
    FilterMembers(t.entries, f);
    forall e ensures e in d <==> e in c {}
    SuffixByRank(d, c, q.depth);
  }

  // ---------- Receive ----------

  /** What the subscriber has not received yet and its depth lets it have. */
  ghost function Due(w: World, t: Topic, q: Subscriber): set<Entry> {
    Reach(Candidates(w, t, q, q.latest + 1), q.depth)
  }

  /** The entries of `t`, with the bit of `q` set in those of `handed` and no other bit changed. */
  ghost predicate BitsSet(t: Topic, u: Topic, q: int, handed: seq<Entry>) {
    && |u.entries| == |t.entries|
    && forall i :: 0 <= i < |t.entries| ==>
         u.entries[i] == t.entries[i].(refs := t.entries[i].refs + if t.entries[i] in handed then {q} else {})
  }

  /**
    A receive hands out the oldest ten of what is due, in order, and announces more exactly if more is
    due. Whatever the mapping stage does after it, the subscriber then holds what was handed out, has
    its progress there, and nothing else of the store's messages has changed.
   */
  lemma ReceiveAnswer(s: State, op: Op, T: int)
    requires Inv(s) && op.ReceiveMsg? && DeliversTo(s, op, T, op.id)
    ensures var u, r := Step(s, op).0, Step(s, op).1;
      var t, due := s.topics[T], Due(WorldOf(s), s.topics[T], s.topics[T].subs[op.id]);
      && r.DeliveryReply? && Ascending(r.handed)
      && (forall e :: e in r.handed <==> e in due && |NotNewerThan(due, e.id)| <= 10)
      && (r.callAgain <==> exists e :: e in due && |NotNewerThan(due, e.id)| > 10)
      && T in u.topics && HandedAndHeld(t, u.topics[T], op.id, r.handed)
  {
    hide Inv, Deliverable, Newest, HandedOut, MapPublishers, Consistent, NoStaleDead, EndpointsOk, Homed, Due,
         NotNewerThan, HandedAndHeld, Window, Batch, Step;
    var t := s.topics[T];
    var batch := Batch(WorldOf(s), t, t.subs[op.id]);
    StoreFacts(s, T);
    BatchByRank(WorldOf(s), t, op.id);
    ReceiveIs(s, op, T);
    HandedOutKeepsSub(t, op.id, batch);
    DeliveryBits(s, T, op.id, batch, DomainOf(s.procs, op.pid), op.buffers, op.shm);
  }

  lemma BatchByRank(w: World, t: Topic, q: int)
    requires Consistent(t) && q in t.subs
    ensures var due := Due(w, t, t.subs[q]);
      && Ascending(Batch(w, t, t.subs[q]))
      && (forall e :: e in Batch(w, t, t.subs[q]) <==> e in due && |NotNewerThan(due, e.id)| <= 10)
      && (|Window(w, t, t.subs[q])| > 10 <==> exists e :: e in due && |NotNewerThan(due, e.id)| > 10)
  {
    hide Consistent, Newest, Reach, Candidates, NotNewerThan;
    StoreAscending(t);
    NewestIsReach(w, t, t.subs[q], t.subs[q].latest + 1);
    PrefixByRank(Window(w, t, t.subs[q]), Due(w, t, t.subs[q]), 10);
  }

  lemma ReceiveIs(s: State, op: Op, T: int)
    requires op.ReceiveMsg? && DeliversTo(s, op, T, op.id) && T in s.topics
    ensures var t := s.topics[T];
      var batch := Batch(WorldOf(s), t, t.subs[op.id]);
      op.id in HandedOut(t, op.id, batch).subs &&
      var (u, r) := MapPublishers(s, T, HandedOut(t, op.id, batch), op.id, DomainOf(s.procs, op.pid), op.buffers,
                                  op.shm);
      Step(s, op) == (u, DeliveryReply(r, batch, |Window(WorldOf(s), t, t.subs[op.id])| > 10))
  {
    hide MapPublishers, Window, HandedOut, Batch;
    HandedOutKeepsSub(s.topics[T], op.id, Batch(WorldOf(s), s.topics[T], s.topics[T].subs[op.id]));
  }

  function LastOf(handed: seq<Entry>, before: int): int {
    if handed == [] then before else handed[|handed| - 1].id
  }

  /** `q` holds what was handed out, its progress is there, and no other bit or progress has changed. */
  ghost predicate HandedAndHeld(t: Topic, u: Topic, q: int, handed: seq<Entry>)
    requires q in t.subs
  {
    && BitsSet(t, u, q, handed)
    && u.subs.Keys == t.subs.Keys
    && u.subs[q].latest == LastOf(handed, t.subs[q].latest)
    && forall x :: x in t.subs && x != q ==> u.subs[x] == t.subs[x]
  }

  lemma DeliveryBits(s: State, T: int, q: int, batch: seq<Entry>, domain: nat, buffers: nat, shm: ShmFault)
    requires T in s.topics && q in s.topics[T].subs && q in HandedOut(s.topics[T], q, batch).subs
    ensures var u := MapPublishers(s, T, HandedOut(s.topics[T], q, batch), q, domain, buffers, shm).0;
      T in u.topics && HandedAndHeld(s.topics[T], u.topics[T], q, batch)
  {
    hide PoolsToMap, MappedInto, Unmappable, HandedOut, HandedAndHeld, LastOf;
    var t := s.topics[T];
    var v := HandedOut(t, q, batch);
    HandingOutBits(t, q, batch);
    FlagIrrelevant(t, v, q, batch, v.subs[q].(needMmap := false));
  }

  lemma HandingOutBits(t: Topic, q: int, batch: seq<Entry>)
    requires q in t.subs
    ensures HandedAndHeld(t, HandedOut(t, q, batch), q, batch)
  {
    forall e: Entry ensures e.(refs := e.refs + {}) == e {
      assert e.refs + {} == e.refs;
    }
  }

  lemma FlagIrrelevant(t: Topic, v: Topic, q: int, batch: seq<Entry>, r: Subscriber)
    requires q in t.subs && q in v.subs && HandedAndHeld(t, v, q, batch) && r == v.subs[q].(needMmap := r.needMmap)
    ensures HandedAndHeld(t, v.(subs := v.subs[q := r]), q, batch)
  {
    hide BitsSet;
    BitsIrrelevant(t, v, v.(subs := v.subs[q := r]), q, batch);
  }

  lemma BitsIrrelevant(t: Topic, v: Topic, u: Topic, q: int, batch: seq<Entry>)
    requires BitsSet(t, v, q, batch) && u.entries == v.entries
    ensures BitsSet(t, u, q, batch)
  {
  }

  // ---------- Take ----------

  /** What a take may return: what is newer than the last received message, and that message if allowed. */
  ghost function Takeables(w: World, t: Topic, q: Subscriber, same: bool): set<Entry> {
    set e | e in t.entries && Deliverable(w, t, q, e) && (q.latest < e.id || (same && q.latest == e.id))
  }

  /**
    A take returns the oldest of the newest `depth` takeable messages: at most `depth` are at least as
    new as it, and more than `depth` are at least as new as any older one. It returns nothing exactly if
    nothing is takeable or the depth is zero. The effect is that of receiving what it returns.
   */
  lemma TakeAnswer(s: State, op: Op, T: int)
    requires Inv(s) && op.TakeMsg? && DeliversTo(s, op, T, op.id)
    ensures var u, r := Step(s, op).0, Step(s, op).1;
      var t, q := s.topics[T], s.topics[T].subs[op.id];
      var all := Takeables(WorldOf(s), t, q, op.allowSame);
      && r.DeliveryReply? && !r.callAgain && |r.handed| <= 1
      && (r.handed == [] <==> all == {} || q.depth == 0)
      && (r.handed != [] ==> OldestInReach(all, q.depth, r.handed[0]))
      && T in u.topics && HandedAndHeld(t, u.topics[T], op.id, r.handed)
  {
    hide Inv, Deliverable, Newest, HandedOut, MapPublishers, Consistent, NoStaleDead, EndpointsOk, Homed, Takeables,
         OldestInReach, HandedAndHeld, TakeCandidate, Step;
    var t := s.topics[T];
    var candidate := TakeCandidate(WorldOf(s), t, t.subs[op.id], op.allowSame);
    StoreFacts(s, T);
    CandidateByRank(WorldOf(s), t, op.id, op.allowSame);
    TakeIs(s, op, T);
    HandedOutKeepsSub(t, op.id, candidate);
    DeliveryBits(s, T, op.id, candidate, DomainOf(s.procs, op.pid), op.buffers, op.shm);
  }

  ghost predicate OldestInReach(all: set<Entry>, depth: nat, e: Entry) {
    && e in all && |NotOlderThan(all, e.id)| <= depth
    && forall d :: d in all && d.id < e.id ==> |NotOlderThan(all, d.id)| > depth
  }

  lemma CandidateByRank(w: World, t: Topic, q: int, same: bool)
    requires Consistent(t) && q in t.subs
    ensures var all := Takeables(w, t, t.subs[q], same);
      var candidate := TakeCandidate(w, t, t.subs[q], same);
      && |candidate| <= 1
      && (candidate == [] <==> all == {} || t.subs[q].depth == 0)
      && (candidate != [] ==> OldestInReach(all, t.subs[q].depth, candidate[0]))
  {
    hide Consistent, Newest, NotOlderThan;
    var floor := TakeFloor(t.subs[q], same);
    var all, newest := Takeables(w, t, t.subs[q], same), Newest(w, t, t.subs[q], floor);
    StoreAscending(t);
    assert forall e :: e in all <==> e in Candidates(w, t, t.subs[q], floor);
    assert all == Candidates(w, t, t.subs[q], floor);
    NewestIsReach(w, t, t.subs[q], floor);
    NewestSize(w, t, t.subs[q], floor);
    if newest != [] {
      assert newest[0] in newest;
      assert forall d :: d in newest ==> newest[0].id <= d.id;
    }
  }

  lemma NewestSize(w: World, t: Topic, q: Subscriber, floor: int)
    requires Ascending(t.entries)
    ensures Newest(w, t, q, floor) == [] <==> Candidates(w, t, q, floor) == {} || q.depth == 0
  {
    hide Filter, Deliverable;
    var d := Filter(t.entries, Wanted(w, t, q, floor));
    FilterMembers(t.entries, Wanted(w, t, q, floor));
    if d != [] {
      assert d[0] in d && d[0] in Candidates(w, t, q, floor);
    }
    if e :| e in Candidates(w, t, q, floor) {
      assert e in d;
    }
  }

  lemma TakeIs(s: State, op: Op, T: int)
    requires op.TakeMsg? && DeliversTo(s, op, T, op.id) && T in s.topics
    ensures var t := s.topics[T];
      var candidate := TakeCandidate(WorldOf(s), t, t.subs[op.id], op.allowSame);
      op.id in HandedOut(t, op.id, candidate).subs &&
      var (u, r) := MapPublishers(s, T, HandedOut(t, op.id, candidate), op.id, DomainOf(s.procs, op.pid), op.buffers,
                                  op.shm);
      Step(s, op) == (u, DeliveryReply(r, candidate, false))
  {
    hide MapPublishers, HandedOut, TakeCandidate;
    var t := s.topics[T];
    HandedOutKeepsSub(t, op.id, TakeCandidate(WorldOf(s), t, t.subs[op.id], op.allowSame));
  }

  /** With nothing newer to deliver, the message received last is taken again, if it is still there. */
  lemma TakenAgain(s: State, op: Op, T: int, e: Entry)
    requires Inv(s) && op.TakeMsg? && op.allowSame && DeliversTo(s, op, T, op.id)
    requires var t, q := s.topics[T], s.topics[T].subs[op.id];
      && e in t.entries && e.id == q.latest && Deliverable(WorldOf(s), t, q, e) && q.depth > 0
      && forall d :: !Pending(WorldOf(s), t, q, d)
    ensures Step(s, op).1.handed == [e]
  {
    hide Inv, Deliverable, Step, NotOlderThan, HandedAndHeld, Consistent, NoStaleDead, EndpointsOk, Homed;
    var t, q := s.topics[T], s.topics[T].subs[op.id];
    TakeAnswer(s, op, T);
    StoreFacts(s, T);
    StoreAscending(t);
    assert e in Takeables(WorldOf(s), t, q, true);
    forall d | d in Takeables(WorldOf(s), t, q, true) ensures d == e {
      assert !Pending(WorldOf(s), t, q, d);
      SameIdSameEntry(t.entries, d, e);
    }
  }

  /** A receive or take by anybody else than a subscriber of the caller's store is refused and does nothing. */
  lemma DeliveryRefused(s: State, op: Op)
    requires op.ReceiveMsg? || op.TakeMsg?
    requires forall T :: !DeliversTo(s, op, T, op.id)
    ensures Step(s, op) == (s, DeliveryReply(Err(EINVAL), [], false))
  {
    hide MapPublishers, HandedOut, Batch, Window, TakeCandidate;
    var found := StoreAt(s, op.pid, op.ns, op.name);
    if found.Some? {
      assert !DeliversTo(s, op, found.value, op.id);
    }
  }

  // ---------- Release ----------

  /** The same entries, but for the bit of `q` in the one with this id. */
  ghost predicate BitCleared(es: seq<Entry>, after: seq<Entry>, q: int, id: int) {
    && |after| == |es|
    && forall i :: 0 <= i < |es| ==> after[i] == es[i].(refs := es[i].refs - if es[i].id == id then {q} else {})
  }

  /** A release clears the one bit it names, or fails when the subscriber does not hold the message. */
  lemma ReleaseAnswer(s: State, op: Op, T: int)
    requires Inv(s) && op.ReleaseRef? && StoreAt(s, op.pid, op.ns, op.name) == Some(T)
    ensures var u, r := Step(s, op).0, Step(s, op).1; var t := s.topics[T];
      var held := exists e :: e in t.entries && e.id == op.entry && op.id in e.refs;
      && r == Plain(if held then Ok(0) else Err(EINVAL))
      && T in u.topics && BitCleared(t.entries, u.topics[T].entries, op.id, op.entry)
  {
    hide Inv, CountsOk, NoStaleDead, EndpointsOk, Homed, Ascending;
    var t := s.topics[T];
    StoreFacts(s, T);
    forall e: Entry ensures e.refs - {} == e.refs {}
    if e :| e in t.entries && e.id == op.entry && op.id in e.refs {
      assert HoldersOk(t.subs, e);
      var i :| 0 <= i < |t.entries| && t.entries[i] == e;
      assert Holds(t, op.id, op.entry);
    }
    if Holds(t, op.id, op.entry) {
      var i :| 0 <= i < |t.entries| && t.entries[i].id == op.entry && op.id in t.entries[i].refs;
      assert t.entries[i] in t.entries;
    } else {
      forall i | 0 <= i < |t.entries| && t.entries[i].id == op.entry
        ensures t.entries[i].refs - {op.id} == t.entries[i].refs
      {
      }
    }
  }
}
