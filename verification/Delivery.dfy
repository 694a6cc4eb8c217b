// What one subscriber gets out of repeated receives, and what a publish reclaims, in plain terms.

module Delivery {
  import opened Base
  import opened Seqs
  import opened TopicModel
  import opened StoreInvariant
  import opened WalkLemmas

  // ---------- Draining the window ----------

  lemma {:induction false} FilterPointwise<T>(a: seq<T>, b: seq<T>, f: T -> bool)
    requires |a| == |b|
    requires forall i :: 0 <= i < |a| ==> f(a[i]) == f(b[i]) && (f(a[i]) ==> a[i] == b[i])
    ensures Filter(a, f) == Filter(b, f)
  {
    if a != [] {
      FilterPointwise(a[..|a| - 1], b[..|b| - 1], f);
    }
  }

  lemma {:induction false} FilterStronger<T>(s: seq<T>, f: T -> bool, g: T -> bool, h: T -> bool)
    requires forall i :: 0 <= i < |s| ==> (h(s[i]) <==> f(s[i]) && g(s[i]))
    ensures Filter(s, h) == Filter(Filter(s, f), g)
  {
    if s == [] {
      assert Filter(Filter(s, f), g) == [];
    } else {
      var init, last := s[..|s| - 1], s[|s| - 1];
      assert s == init + [last];
      hide Filter;
      FilterStronger(init, f, g, h);
      FilterAppend(init, last, f);
      FilterAppend(init, last, h);
      FilterAppend(Filter(init, f), last, g);
    }
  }

  function Above(id: int): Entry -> bool {
    (e: Entry) => id < e.id
  }

  /** The part of an ascending sequence above the id of its n-th element. */
  lemma AboveNth(d: seq<Entry>, n: nat)
    requires Ascending(d) && 0 < n <= |d|
    ensures Filter(d, Above(d[n - 1].id)) == d[n..]
  {
    hide Filter;
    var id := d[n - 1].id;
    assert d == d[..n] + d[n..];
    FilterConcat(d[..n], d[n..], Above(id));
    FilterNone(d[..n], Above(id));
    FilterAll(d[n..], Above(id));
  }

  /** After a receive the window is what the batch left over. */
  lemma WindowAfterReceive(w: World, t: Topic, s: int)
    requires Consistent(t) && s in t.subs
    ensures var u := Receive(w, t, s);
      && s in u.subs
      && Window(w, u, u.subs[s]) == Window(w, t, t.subs[s])[|Batch(w, t, t.subs[s])|..]
  {
    hide Filter, Consistent, Deliverable;
    var q := t.subs[s];
    var d := Filter(t.entries, Wanted(w, t, q, q.latest + 1));
    var window, batch := Window(w, t, q), Batch(w, t, q);
    if batch != [] {
      var u := Receive(w, t, s);
      var r := u.subs[s];
      var skip := |d| - |window|;
      assert window == d[skip..] && batch == window[..|batch|];
      StoreAscending(t);
      FilterAscending(t.entries, Wanted(w, t, q, q.latest + 1));
      var n := skip + |batch|;
      assert batch[|batch| - 1] == d[n - 1] && r.latest == d[n - 1].id;
      FilterMember(t.entries, Wanted(w, t, q, q.latest + 1), d[n - 1]);
      AboveNth(d, n);
      LaterWanted(w, t, u, q, r, s, batch);
      assert Filter(u.entries, Wanted(w, u, r, r.latest + 1)) == d[n..];
      assert d[n..] == window[|batch|..];
    }
  }

  lemma LaterWanted(w: World, t: Topic, u: Topic, q: Subscriber, r: Subscriber, s: int, batch: seq<Entry>)
    requires Ascending(batch) && batch != []
    requires u.pubs == t.pubs && u.rule == t.rule && u.entries == Marked(t.entries, batch, s)
    requires r == q.(latest := batch[|batch| - 1].id) && q.latest <= r.latest
    ensures Filter(u.entries, Wanted(w, u, r, r.latest + 1))
         == Filter(Filter(t.entries, Wanted(w, t, q, q.latest + 1)), Above(r.latest))
  {
    hide Filter, DeliveryAllowed;
    var h := Wanted(w, u, r, r.latest + 1);
    assert forall e :: e in batch ==> e.id <= r.latest;
    FilterPointwise(u.entries, t.entries, h);
    FilterStronger(t.entries, Wanted(w, t, q, q.latest + 1), Above(r.latest), h);
  }

  /** Receiving again and again until nothing more is announced: the messages in order, and the number of calls. */
  ghost function Drain(w: World, t: Topic, s: int): (seq<Entry>, nat)
    requires Consistent(t) && s in t.subs
    decreases |Window(w, t, t.subs[s])|
  {
    var batch := Batch(w, t, t.subs[s]);
    if |Window(w, t, t.subs[s])| <= MAX_RECEIVE_NUM then (batch, 1)
    else
      ReceiveKeeps(w, t, s);
      WindowAfterReceive(w, t, s);
      var (rest, calls) := Drain(w, Receive(w, t, s), s);
      (batch + rest, calls + 1)
  }

  /** The loop yields the whole window exactly once, in ceil(|window| / 10) calls but at least one. */
  lemma {:induction false} DrainYieldsWindow(w: World, t: Topic, s: int)
    requires Consistent(t) && s in t.subs
    ensures var window := Window(w, t, t.subs[s]);
      && Drain(w, t, s).0 == window
      && Drain(w, t, s).1 == Max(1, (|window| + MAX_RECEIVE_NUM - 1) / MAX_RECEIVE_NUM)
    decreases |Window(w, t, t.subs[s])|
  {
    hide Consistent, Window;
    var window, batch := Window(w, t, t.subs[s]), Batch(w, t, t.subs[s]);
    if |window| > MAX_RECEIVE_NUM {
      ReceiveKeeps(w, t, s);
      WindowAfterReceive(w, t, s);
      DrainYieldsWindow(w, Receive(w, t, s), s);
      assert window == window[..|batch|] + window[|batch|..];
    }
  }

  // ---------- The window, in terms of ranks ----------

  /** The deliverable messages newer than the last received one. */
  ghost predicate Pending(w: World, t: Topic, q: Subscriber, e: Entry) {
    e in t.entries && q.latest < e.id && Deliverable(w, t, q, e)
  }

  /** The window holds pending messages only; any pending message outside it is older, and then the window is full. */
  lemma WindowIsNewestPending(w: World, t: Topic, s: int)
    requires Consistent(t) && s in t.subs
    ensures var q := t.subs[s]; var window := Window(w, t, q);
      && Ascending(window) && |window| <= q.depth
      && (forall e :: e in window ==> Pending(w, t, q, e))
      && (forall e :: Pending(w, t, q, e) && e !in window ==>
            |window| == q.depth && forall d :: d in window ==> e.id < d.id)
  {
    hide Filter, Consistent, Deliverable;
    var q := t.subs[s];
    var f := Wanted(w, t, q, q.latest + 1);
    var d, window := Filter(t.entries, f), Window(w, t, q);
    StoreAscending(t);
    FilterAscending(t.entries, f);
    FilterMembers(t.entries, f);
    var skip := |d| - |window|;
    forall e | e in window ensures Pending(w, t, q, e) {
      assert e in d && f(e);
    }
    forall e | Pending(w, t, q, e) && e !in window
      ensures |window| == q.depth && forall c :: c in window ==> e.id < c.id
    {
      assert f(e) && e in d;
      var i :| 0 <= i < |d| && d[i] == e;
      InPrefixOrSuffix(d, skip, i);
    }
  }

  // ---------- What a publish reclaims ----------

  /** How many of the publisher's entries are at least as new as `e`. */
  function NewerOwn(t: Topic, p: int, e: Entry): nat {
    |Filter(t.entries, OwnNotOlder(p, e.id))|
  }

  function OwnNotOlder(p: int, id: int): Entry -> bool {
    (e: Entry) => e.publisher == p && id <= e.id
  }

  /** An own entry is excess iff more than `depth` own entries, itself included, are at least as new. */
  lemma ExcessMeaning(t: Topic, p: int, e: Entry)
    requires Consistent(t) && p in t.pubs && e in t.entries && e.publisher == p
    ensures e in Excess(t, p) <==> NewerOwn(t, p, e) > Max(1, t.pubs[p].depth)
  {
    hide Filter, Consistent;
    var own := Filter(t.entries, OwnedBy(p));
    StoreAscending(t);
    FilterAscending(t.entries, OwnedBy(p));
    FilterMember(t.entries, OwnedBy(p), e);
    assert e in own;
    var i :| 0 <= i < |own| && own[i] == e;
    FilterStronger(t.entries, OwnedBy(p), NotOlder(e.id), OwnNotOlder(p, e.id));
    NotOlderThanNth(own, i);
    var k := Max(0, |own| - Max(1, t.pubs[p].depth));
    assert Excess(t, p) == own[..k];
    if e in own[..k] {
      var j :| 0 <= j < k && own[..k][j] == e;
      assert own[j] == own[i];
    }
    if i < k {
      assert own[..k][i] == e;
    }
  }

  function NotOlder(id: int): Entry -> bool {
    (e: Entry) => id <= e.id
  }

  lemma NotOlderThanNth(d: seq<Entry>, i: nat)
    requires Ascending(d) && i < |d|
    ensures Filter(d, NotOlder(d[i].id)) == d[i..]
  {
    hide Filter;
    assert d == d[..i] + d[i..];
    FilterConcat(d[..i], d[i..], NotOlder(d[i].id));
    FilterNone(d[..i], NotOlder(d[i].id));
    FilterAll(d[i..], NotOlder(d[i].id));
  }

  /**
    A publish hands back only unreferenced excess entries of its own publisher, the oldest first and
    at most three. An unreferenced excess entry is passed over only when three older ones were handed
    back; so with fewer than three, whatever excess is left is referenced. Nothing else leaves the tree.
   */
  lemma PublishReclaims(t: Topic, p: int, addr: int)
    requires Consistent(t) && p in t.pubs
    ensures var t1, u := Inserted(t, p, addr), Published(t, p, addr); var gone := Reclaimable(t1, p);
      && |gone| <= MAX_RELEASE_NUM && Ascending(gone)
      && (forall e :: e in gone ==> e in Excess(t1, p) && e.refs == {} && e.publisher == p && e !in u.entries)
      && (forall e :: e in Excess(t1, p) && e.refs == {} && e !in gone ==>
            |gone| == MAX_RELEASE_NUM && forall d :: d in gone ==> d.id < e.id)
      && (forall e :: e in t1.entries && e !in gone ==> e in u.entries)
      && (forall e :: e in t1.entries && e.publisher == p && NewerOwn(t1, p, e) <= Max(1, t.pubs[p].depth) ==>
           e in u.entries)
  {
    hide Filter, Consistent, Excess;
    var t1 := Inserted(t, p, addr);
    InsertedKeeps(t, p, addr);
    StoreAscending(t1);
    ReclaimableFacts(t1, p);
    var gone, free := Reclaimable(t1, p), Filter(Excess(t1, p), Unreferenced());
    FilterMembers(Excess(t1, p), Unreferenced());
    FilterMembers(t1.entries, NotAmong(gone));
    assert Ascending(Excess(t1, p)) by { ExcessAscending(t1, p); }
    FilterAscending(Excess(t1, p), Unreferenced());
    forall e | e in Excess(t1, p) && e.refs == {} && e !in gone
      ensures |gone| == MAX_RELEASE_NUM && forall d :: d in gone ==> d.id < e.id
    {
      assert e in free;
      var i :| 0 <= i < |free| && free[i] == e;
      InPrefixOrSuffix(free, |gone|, i);
    }
    forall e | e in t1.entries && e.publisher == p && NewerOwn(t1, p, e) <= Max(1, t.pubs[p].depth)
      ensures e !in gone
    {
      ExcessMeaning(t1, p, e);
    }
  }

  lemma ExcessAscending(t: Topic, p: int)
    requires Ascending(t.entries) && p in t.pubs
    ensures Ascending(Excess(t, p))
  {
    FilterAscending(t.entries, OwnedBy(p));
  }

  /**
    When a publish fails with -ENODATA after inserting: exactly for depth 0, when fewer than three of
    the publisher's older entries are unreferenced.
   */
  lemma PublishFailsExactly(t: Topic, p: int, addr: int)
    requires Consistent(t) && p in t.pubs
    ensures WalkRunsOff(Inserted(t, p, addr), p) <==>
      t.pubs[p].depth == 0 && |Filter(Filter(t.entries, OwnedBy(p)), Unreferenced())| < MAX_RELEASE_NUM
  {
    hide Filter;
    var t1 := Inserted(t, p, addr);
    var own := Filter(t.entries, OwnedBy(p));
    FilterAppend(t.entries, Entry(t.nextEntry, p, addr, {}), OwnedBy(p));
    if t.pubs[p].depth == 0 {
      assert Excess(t1, p) == own;
    }
  }
}
