// Calls under the read lock are linearizable: any interleaving of their steps is a serial execution.

module Concurrency {
  import opened Base
  import opened Seqs
  import opened TopicModel
  import opened StoreInvariant
  import opened WalkLemmas
  import opened ConcurrentCalls

  // ---------- The simulation ----------

  function HandedBy(p: Phase): seq<Entry> {
    if p.Forward? then p.handed else []
  }

  /** The receives in progress that have already marked this entry. */
  function Pending(jobs: map<int, Phase>, b: Entry): set<int> {
    set s | s in jobs && b in HandedBy(jobs[s])
  }

  function Overlaid(e: Entry, jobs: map<int, Phase>): Entry {
    e.(refs := e.refs + Pending(jobs, Bare(e)))
  }

  /** The store as the readers see it: `t` plus the bits of receives that have not completed. */
  function Overlay(t: Topic, jobs: map<int, Phase>): Topic {
    t.(entries := seq(|t.entries|, i requires 0 <= i < |t.entries| => Overlaid(t.entries[i], jobs)))
  }

  /** The store reduced to what the walk of one subscriber depends on. */
  function Solo(t: Topic, s: int): Topic
    requires s in t.subs
  {
    t.(entries := BareAll(t.entries), subs := map[s := t.subs[s]])
  }

  /** The walk of `s` has come exactly as far as it would have come alone. */
  ghost predicate JobOk(w: World, t: Topic, s: int, p: Phase) {
    s in t.subs &&
    var u, q := Solo(t, s), t.subs[s];
    match p
    case Backward(back, node, num) => BackAt(w, u, q, q.latest + 1, back, node, num)
    case Forward(start, num, k, handed) =>
      && |handed| <= MAX_RECEIVE_NUM
      && ForwardAt(w, u, s, start, num, k, Marked(u.entries, handed, s), handed)
    case Taking(same, back, node, num) => BackAt(w, u, q, TakeFloor(q, same), back, node, num)
    case Chosen(same, node, num) => BackEnd(w, u, q, TakeFloor(q, same), node, num)
    case Failed(_) => false
  }

  /** `t` is the store in which exactly the completed calls have taken place. */
  ghost predicate Simulates(w: World, c: Config, t: Topic) {
    && Consistent(t)
    && c.topic == Overlay(t, c.jobs)
    && forall s :: s in c.jobs ==> JobOk(w, t, s, c.jobs[s])
  }

  // ---------- Walks ignore the bits ----------

  lemma {:induction false} FilterBare(es: seq<Entry>, f: Entry -> bool, g: Entry -> bool)
    requires forall i :: 0 <= i < |es| ==> f(es[i]) == g(Bare(es[i]))
    ensures BareAll(Filter(es, f)) == Filter(BareAll(es), g)
  {
    if es != [] {
      var init, e := es[..|es| - 1], es[|es| - 1];
      FilterBare(init, f, g);
      assert BareAll(es)[..|es| - 1] == BareAll(init);
      assert BareAll(Filter(init, f) + [e]) == BareAll(Filter(init, f)) + [Bare(e)];
    }
  }

  lemma SoloDeliverable(w: World, t: Topic, s: int, e: Entry)
    requires s in t.subs
    ensures Deliverable(w, Solo(t, s), t.subs[s], Bare(e)) <==> Deliverable(w, t, t.subs[s], e)
  {
  }

  lemma SoloNewest(w: World, t: Topic, s: int, floor: int)
    requires s in t.subs
    ensures BareAll(Newest(w, t, t.subs[s], floor)) == Newest(w, Solo(t, s), t.subs[s], floor)
  {
    hide Deliverable, Filter;
    var q := t.subs[s];
    var f, g := Wanted(w, t, q, floor), Wanted(w, Solo(t, s), q, floor);
    forall i | 0 <= i < |t.entries| ensures f(t.entries[i]) == g(Bare(t.entries[i])) {
      SoloDeliverable(w, t, s, t.entries[i]);
    }
    FilterBare(t.entries, f, g);
    var d := Filter(t.entries, f);
    assert BareAll(d[|d| - Min(q.depth, |d|)..]) == BareAll(d)[|d| - Min(q.depth, |d|)..];
  }

  lemma BarePrefix(es: seq<Entry>, n: nat)
    ensures BareAll(es[..Min(n, |es|)]) == BareAll(es)[..Min(n, |es|)] && |BareAll(es)| == |es|
  {
  }

  lemma SoloWindow(w: World, t: Topic, s: int)
    requires s in t.subs
    ensures BareAll(Window(w, t, t.subs[s])) == Window(w, Solo(t, s), t.subs[s])
    ensures BareAll(Batch(w, t, t.subs[s])) == Batch(w, Solo(t, s), t.subs[s])
  {
    hide Newest, BareAll, Solo;
    SoloNewest(w, t, s, t.subs[s].latest + 1);
    BarePrefix(Window(w, t, t.subs[s]), MAX_RECEIVE_NUM);
  }

  lemma SoloTake(w: World, t: Topic, s: int, same: bool)
    requires s in t.subs
    ensures BareAll(TakeCandidate(w, t, t.subs[s], same)) == TakeCandidate(w, Solo(t, s), t.subs[s], same)
  {
    hide Newest, BareAll, Solo;
    SoloNewest(w, t, s, TakeFloor(t.subs[s], same));
    BarePrefix(Newest(w, t, t.subs[s], TakeFloor(t.subs[s], same)), 1);
  }

  lemma {:induction false} CountBare(es: seq<Entry>, p: int)
    ensures Count(BareAll(es), p) == Count(es, p)
  {
    FilterBare(es, OwnedBy(p), OwnedBy(p));
  }

  lemma SoloConsistent(t: Topic, s: int)
    requires Consistent(t) && s in t.subs
    ensures Consistent(Solo(t, s))
  {
    hide Count;
    var u := Solo(t, s);
    assert forall i :: 0 <= i < |t.entries| ==> t.entries[i] in t.entries;
    forall p | p in u.pubs ensures u.pubs[p].entriesNum == Count(u.entries, p) {
      CountBare(t.entries, p);
    }
  }

  // ---------- Every step keeps the simulation ----------

  lemma SameSoloSameJob(w: World, t: Topic, u: Topic, s: int, p: Phase)
    requires JobOk(w, t, s, p) && s in u.subs && Solo(u, s) == Solo(t, s)
    ensures JobOk(w, u, s, p)
  {
    assert Solo(u, s).subs[s] == Solo(t, s).subs[s];
  }

  /** A change of bits, and of the progress of subscribers without a running receive, disturbs no receive. */
  lemma OtherJobsKept(w: World, c: Config, t: Topic, u: Topic, jobs: map<int, Phase>)
    requires Simulates(w, c, t) && BareAll(u.entries) == BareAll(t.entries)
    requires u == t.(entries := u.entries, subs := u.subs)
    requires forall s :: s in jobs ==> s in c.jobs && jobs[s] == c.jobs[s] && s in u.subs && u.subs[s] == t.subs[s]
    ensures forall s :: s in jobs ==> JobOk(w, u, s, jobs[s])
  {
    hide Consistent, JobOk, Overlay;
    forall s | s in jobs ensures JobOk(w, u, s, jobs[s]) {
      SameSoloSameJob(w, t, u, s, jobs[s]);
    }
  }

  lemma NothingPending(t: Topic)
    ensures Overlay(t, map[]) == t
  {
    forall e: Entry ensures Overlaid(e, map[]) == e {
      assert Pending(map[], Bare(e)) == {};
    }
    assert Overlay(t, map[]).entries == t.entries;
  }

  /** A change of one job that marks nothing. */
  lemma SilentChange(t: Topic, jobs: map<int, Phase>, s: int, p: Phase)
    requires HandedBy(p) == if s in jobs then HandedBy(jobs[s]) else []
    ensures Overlay(t, jobs[s := p]) == Overlay(t, jobs)
  {
    forall b ensures Pending(jobs[s := p], b) == Pending(jobs, b) {
      assert forall x :: x in Pending(jobs[s := p], b) <==> x in Pending(jobs, b);
    }
    assert Overlay(t, jobs[s := p]).entries == Overlay(t, jobs).entries;
  }

  lemma BeginSimulates(w: World, c: Config, t: Topic, s: int)
    requires Simulates(w, c, t) && Possible(c, Begin(s))
    ensures Simulates(w, Do(w, c, Begin(s)), t)
  {
    hide Consistent, Overlay, BackAt, Wanted, Pending;
    OverlayShape(t, c.jobs);
    var q, u := t.subs[s], Solo(t, s);
    var p := Started(c.topic, q);
    SilentChange(t, c.jobs, s, p);
    BackStarts(w, u, q, q.latest + 1);
    if p.Forward? {
      assert BackEnd(w, u, q, q.latest + 1, |u.entries|, 0) by {
        NoWindow(w, u, q);
        BackStops(w, u, q, q.latest + 1, |u.entries|, |u.entries|, 0);
      }
      ForwardStarts(w, u, s, |u.entries|, 0);
      MarkNone(u.entries, s);
    }
    assert JobOk(w, t, s, p);
  }

  lemma NoWindow(w: World, u: Topic, q: Subscriber)
    requires u.entries == [] || q.depth == 0
    ensures u.entries == [] ==> |u.entries| == 0
    ensures q.depth == 0 ==> 0 >= q.depth
  {
  }

  lemma OverlayShape(t: Topic, jobs: map<int, Phase>)
    ensures var u := Overlay(t, jobs);
      && u == t.(entries := u.entries) && |u.entries| == |t.entries|
      && forall i :: 0 <= i < |t.entries| ==>
           u.entries[i] == t.entries[i].(refs := t.entries[i].refs + Pending(jobs, Bare(t.entries[i])))
  {
  }

  lemma BackwardSimulates(w: World, c: Config, t: Topic, s: int)
    requires Simulates(w, c, t) && Possible(c, Advance(s)) && c.jobs[s].Backward?
    ensures Simulates(w, Do(w, c, Advance(s)), t)
  {
    hide Consistent, Overlay, BackAt, BackEnd, Deliverable, Pending, Marked;
    var q, u := t.subs[s], Solo(t, s);
    var back, node, num := c.jobs[s].back, c.jobs[s].node, c.jobs[s].num;
    OverlayShape(t, c.jobs);
    SoloConsistent(t, s);
    var p := BackwardStep(w, c.topic, q, back, node, num);
    if back > 0 && num < q.depth {
      BackStep(w, u, q, q.latest + 1, back, node, num);
      var e := c.topic.entries[back - 1];
      SoloDeliverable(w, t, s, t.entries[back - 1]);
      SameDeliverable(w, t, c.topic, q, t.entries[back - 1], e);
    }
    if p.Forward? {
      BackStops(w, u, q, q.latest + 1, back, node, num);
      ForwardStarts(w, u, s, node, num);
      MarkNone(u.entries, s);
    }
    SilentChange(t, c.jobs, s, p);
    assert JobOk(w, t, s, p);
  }

  lemma SameDeliverable(w: World, t: Topic, u: Topic, q: Subscriber, e: Entry, f: Entry)
    requires u.pubs == t.pubs && u.rule == t.rule && f.publisher == e.publisher
    ensures Deliverable(w, u, q, f) <==> Deliverable(w, t, q, e)
  {
  }

  /** A running receive marks only entries its subscriber had not received before it began. */
  lemma HandedAhead(w: World, t: Topic, s: int, p: Phase)
    requires JobOk(w, t, s, p) && EntriesOk(t)
    ensures forall b :: b in HandedBy(p) ==> b.id > t.subs[s].latest
    ensures p.Forward? && p.k < |t.entries| ==> t.entries[p.k].id > t.subs[s].latest
  {
    hide Filter, Newest, Deliverable, Marked;
    var u, q := Solo(t, s), t.subs[s];
    if p.Forward? {
      FilterMembers(u.entries[p.start..p.k], Wanted(w, u, q, q.latest + 1));
      if p.k < |t.entries| {
        assert u.entries[p.start].id > q.latest;
      }
    }
  }

  lemma BareDistinct(es: seq<Entry>, i: nat, j: nat)
    requires Ascending(es) && i < |es| && j < |es|
    ensures Bare(es[i]) == Bare(es[j]) <==> i == j
  {
    if Bare(es[i]) == Bare(es[j]) {
      assert es[i].id == es[j].id;
    }
  }

  lemma OneMorePending(jobs: map<int, Phase>, s: int, p: Phase, b: Entry, x: Entry)
    requires s in jobs && HandedBy(p) == HandedBy(jobs[s]) + [b]
    ensures Pending(jobs[s := p], x) == if x == b then Pending(jobs, x) + {s} else Pending(jobs, x)
  {
    assert forall y :: y in Pending(jobs[s := p], x) <==> y in Pending(jobs, x) || (y == s && x == b);
  }

  lemma BitOverlay(t: Topic, jobs: map<int, Phase>, s: int, k: nat, p: Phase)
    requires Ascending(t.entries) && k < |t.entries| && s in jobs
    requires HandedBy(p) == HandedBy(jobs[s]) + [Bare(t.entries[k])]
    ensures SetBit(Overlay(t, jobs), k, s) == Overlay(t, jobs[s := p])
  {
    hide Pending, Ascending;
    var a, b := SetBit(Overlay(t, jobs), k, s), Overlay(t, jobs[s := p]);
    forall i | 0 <= i < |t.entries| ensures a.entries[i] == b.entries[i] {
      BareDistinct(t.entries, i, k);
      OneMorePending(jobs, s, p, Bare(t.entries[k]), Bare(t.entries[i]));
    }
    assert a.entries == b.entries;
  }

  lemma NotYetMarked(u: Topic, s: int, handed: seq<Entry>, k: nat)
    requires k < |u.entries| && Marked(u.entries, handed, s)[k] == u.entries[k] && s !in u.entries[k].refs
    ensures u.entries[k] !in handed
  {
  }

  lemma ForwardSimulates(w: World, c: Config, t: Topic, s: int)
    requires Simulates(w, c, t) && Possible(c, Advance(s)) && c.jobs[s].Forward?
    ensures Simulates(w, Do(w, c, Advance(s)), t)
  {
    hide CountsOk, IdsOk, Ascending, Overlay, ForwardAt, Deliverable, Marked, BareAll;
    var q, u, j := t.subs[s], Solo(t, s), c.jobs[s];
    var es := Marked(u.entries, j.handed, s);
    OverlayShape(t, c.jobs);
    SoloConsistent(t, s);
    HandedAhead(w, t, s, j);
    SoloEntry(t, s, j.k);
    assert ForwardAt(w, u, s, j.start, j.num, j.k, es, j.handed);
    MarkedShape(u.entries, j.handed, s);
    ForwardStep(w, u, s, j.start, j.num, j.k, es, j.handed);
    var e, f := t.entries[j.k], c.topic.entries[j.k];
    assert e in t.entries && HoldersOk(t.subs, e);
    SoloDeliverable(w, t, s, e);
    SameDeliverable(w, t, c.topic, q, e, f);
    if Deliverable(w, t, q, e) {
      var p := j.(k := j.k + 1, handed := j.handed + [Bare(e)]);
      NotYetMarked(u, s, j.handed, j.k);
      assert s !in f.refs;
      assert Bare(f) == Bare(e);
      BitOverlay(t, c.jobs, s, j.k, p);
      ForwardMarks(w, u, s, j.start, j.num, j.k + 1, es[j.k := es[j.k].(refs := es[j.k].refs + {s})], p.handed);
      assert JobOk(w, t, s, p);
    } else {
      SilentChange(t, c.jobs, s, j.(k := j.k + 1));
      assert JobOk(w, t, s, j.(k := j.k + 1));
    }
  }

  lemma SoloEntry(t: Topic, s: int, k: nat)
    requires s in t.subs
    ensures |Solo(t, s).entries| == |t.entries|
    ensures k < |t.entries| ==> Solo(t, s).entries[k] == Bare(t.entries[k])
  {
  }

  lemma MarkedShape(es: seq<Entry>, batch: seq<Entry>, s: int)
    ensures |Marked(es, batch, s)| == |es|
  {
  }

  lemma ForwardMarks(w: World, t: Topic, s: int, start: nat, num: nat, k: nat, es: seq<Entry>, handed: seq<Entry>)
    requires ForwardAt(w, t, s, start, num, k, es, handed)
    ensures es == Marked(t.entries, handed, s) && k <= |t.entries|
  {
  }

  lemma ReleaseSimulates(w: World, c: Config, t: Topic, s: int, id: int)
    requires Simulates(w, c, t) && Possible(c, ReleaseRef(s, id))
    ensures Simulates(w, Do(w, c, ReleaseRef(s, id)), Release(t, s, id).0)
    ensures Release(c.topic, s, id).1 == Release(t, s, id).1
  {
    hide Consistent, Overlay, JobOk, Pending, Release;
    OverlayShape(t, c.jobs);
    forall i | 0 <= i < |t.entries| && t.entries[i].id == id
      ensures s !in Pending(c.jobs, Bare(t.entries[i]))
    {
      if s in c.jobs {
        JobSubscriber(w, t, s, c.jobs[s]);
        HandedAhead(w, t, s, c.jobs[s]) by { StoreEntriesOk(t); }
      }
      PendingIff(c.jobs, Bare(t.entries[i]), s);
    }
    ReleaseOverlay(t, c.jobs, s, id);
    ReleaseKeeps(t, s, id);
    ReleaseBare(t, s, id);
    OtherJobsKept(w, c, t, Release(t, s, id).0, c.jobs) by {
      forall x | x in c.jobs ensures x in t.subs {
        JobSubscriber(w, t, x, c.jobs[x]);
      }
    }
  }

  lemma JobSubscriber(w: World, t: Topic, s: int, p: Phase)
    requires JobOk(w, t, s, p)
    ensures s in t.subs
  {
  }

  lemma PendingIff(jobs: map<int, Phase>, b: Entry, s: int)
    ensures s in Pending(jobs, b) <==> s in jobs && b in HandedBy(jobs[s])
  {
  }

  lemma ReleaseBare(t: Topic, s: int, id: int)
    ensures var u := Release(t, s, id).0;
      BareAll(u.entries) == BareAll(t.entries) && u == t.(entries := u.entries)
  {
    var u := Release(t, s, id).0;
    assert BareAll(u.entries) == BareAll(t.entries);
  }

  lemma ReleaseOverlay(t: Topic, jobs: map<int, Phase>, s: int, id: int)
    requires forall i :: 0 <= i < |t.entries| && t.entries[i].id == id ==> s !in Pending(jobs, Bare(t.entries[i]))
    ensures Release(Overlay(t, jobs), s, id).0 == Overlay(Release(t, s, id).0, jobs)
    ensures Release(Overlay(t, jobs), s, id).1 == Release(t, s, id).1
  {
    hide Pending, Overlay;
    var o := Overlay(t, jobs);
    OverlayShape(t, jobs);
    assert Holds(o, s, id) <==> Holds(t, s, id) by {
      if i :| 0 <= i < |t.entries| && t.entries[i].id == id && s in t.entries[i].refs {
        assert o.entries[i].id == id && s in o.entries[i].refs;
      }
      if i :| 0 <= i < |o.entries| && o.entries[i].id == id && s in o.entries[i].refs {
        assert t.entries[i].id == id && s in t.entries[i].refs;
      }
    }
    var u := Release(t, s, id).0;
    OverlayShape(u, jobs);
    var a, b := Release(o, s, id).0, Overlay(u, jobs);
    forall i | 0 <= i < |t.entries| ensures a.entries[i] == b.entries[i] {
      assert Bare(u.entries[i]) == Bare(t.entries[i]);
    }
    assert a.entries == b.entries;
  }

  /** A receive that has walked to its end has handed out what it would have alone, and says so. */
  lemma WalkedToEnd(w: World, c: Config, t: Topic, s: int)
    requires Simulates(w, c, t) && Possible(c, Complete(s))
    ensures s in t.subs
    ensures var batch, window, j := Batch(w, t, t.subs[s]), Window(w, t, t.subs[s]), c.jobs[s];
      && j.handed == BareAll(batch)
      && (j.k < |c.topic.entries| && |j.handed| < j.num <==> |window| > MAX_RECEIVE_NUM)
  {
    hide Consistent, Overlay, ForwardAt, Marked, Batch, Window, BareAll, Solo;
    var q, u, j := t.subs[s], Solo(t, s), c.jobs[s];
    OverlayShape(t, c.jobs);
    SoloEntry(t, s, 0);
    assert ForwardAt(w, u, s, j.start, j.num, j.k, Marked(u.entries, j.handed, s), j.handed);
    SoloSubscriber(t, s);
    ForwardMarks(w, u, s, j.start, j.num, j.k, Marked(u.entries, j.handed, s), j.handed);
    ForwardStops(w, u, s, j.start, j.num, j.k, Marked(u.entries, j.handed, s), j.handed);
    SoloWindow(w, t, s);
    BareReply(Window(w, t, q));
  }

  lemma CompleteSimulates(w: World, c: Config, t: Topic, s: int)
    requires Simulates(w, c, t) && Possible(c, Complete(s))
    ensures s in t.subs && Simulates(w, Do(w, c, Complete(s)), Receive(w, t, s))
    ensures Finished(w, c, Complete(s)) == [(ReceiveCall(s), SerialOutcome(w, t, ReceiveCall(s)))]
  {
    hide Consistent, Overlay, JobOk, Batch, Window, BareAll, HandedOut;
    WalkedToEnd(w, c, t, s);
    var batch := Batch(w, t, t.subs[s]);
    BareReply(batch);
    BatchFromStore(w, t, s);
    CompleteOverlay(t, c.jobs, s, batch) by { StoreEntriesOk(t); }
    ReceiveKeeps(w, t, s);
    HandedOutBare(t, s, batch);
    var jobs := c.jobs - {s};
    OtherJobsKept(w, c, t, Receive(w, t, s), jobs) by {
      forall x | x in jobs ensures x in t.subs {
        JobSubscriber(w, t, x, c.jobs[x]);
      }
    }
  }

  lemma SoloSubscriber(t: Topic, s: int)
    requires s in t.subs
    ensures s in Solo(t, s).subs && Solo(t, s).subs[s] == t.subs[s]
  {
  }

  lemma BareReply(batch: seq<Entry>)
    ensures IdsOf(BareAll(batch)) == IdsOf(batch) && AddrsOf(BareAll(batch)) == AddrsOf(batch)
    ensures |BareAll(batch)| == |batch|
    ensures batch != [] ==> BareAll(batch)[|batch| - 1].id == batch[|batch| - 1].id
  {
  }

  lemma BatchFromStore(w: World, t: Topic, s: int)
    requires s in t.subs
    ensures forall e :: e in Batch(w, t, t.subs[s]) ==> e in t.entries
  {
    hide Deliverable, Filter;
    var q := t.subs[s];
    FilterMembers(t.entries, Wanted(w, t, q, q.latest + 1));
  }

  lemma HandedOutBare(t: Topic, s: int, batch: seq<Entry>)
    requires s in t.subs
    ensures var u := HandedOut(t, s, batch);
      && BareAll(u.entries) == BareAll(t.entries) && u == t.(entries := u.entries, subs := u.subs)
      && u.subs.Keys == t.subs.Keys && forall x :: x in t.subs && x != s ==> u.subs[x] == t.subs[x]
  {
    var u := HandedOut(t, s, batch);
    assert BareAll(u.entries) == BareAll(t.entries);
  }

  lemma InBatchByBare(es: seq<Entry>, batch: seq<Entry>, i: nat)
    requires Ascending(es) && i < |es| && forall e :: e in batch ==> e in es
    ensures es[i] in batch <==> Bare(es[i]) in BareAll(batch)
  {
    if es[i] in batch {
      var k :| 0 <= k < |batch| && batch[k] == es[i];
      assert BareAll(batch)[k] == Bare(es[i]);
    }
    if Bare(es[i]) in BareAll(batch) {
      var k :| 0 <= k < |batch| && BareAll(batch)[k] == Bare(es[i]);
      assert batch[k] in batch;
      var j :| 0 <= j < |es| && es[j] == batch[k];
      BareDistinct(es, i, j);
    }
  }

  /** Once its call has completed, what a receive had marked counts as handed out. */
  lemma CompleteOverlay(t: Topic, jobs: map<int, Phase>, s: int, batch: seq<Entry>)
    requires EntriesOk(t) && s in t.subs && s in jobs && HandedBy(jobs[s]) == BareAll(batch)
    requires forall e :: e in batch ==> e in t.entries
    ensures Advanced(Overlay(t, jobs), s, BareAll(batch)) == Overlay(HandedOut(t, s, batch), jobs - {s})
  {
    hide Overlay, Pending, BareAll, Ascending;
    var v := HandedOut(t, s, batch);
    OverlayShape(t, jobs);
    OverlayShape(v, jobs - {s});
    BareReply(batch);
    var a, b := Overlay(t, jobs), Overlay(v, jobs - {s});
    forall i | 0 <= i < |t.entries| ensures a.entries[i] == b.entries[i] {
      var e := t.entries[i];
      InBatchByBare(t.entries, batch, i);
      PendingIff(jobs, Bare(e), s);
      PendingWithout(jobs, s, Bare(e));
      assert v.entries[i] == if e in batch then e.(refs := e.refs + {s}) else e;
      assert Bare(v.entries[i]) == Bare(e);
    }
    assert a.entries == b.entries;
  }

  lemma PendingWithout(jobs: map<int, Phase>, s: int, b: Entry)
    ensures Pending(jobs - {s}, b) == Pending(jobs, b) - {s}
  {
    assert forall x :: x in Pending(jobs - {s}, b) <==> x in Pending(jobs, b) - {s};
  }

  // ---------- Takes ----------

  lemma BeginTakeSimulates(w: World, c: Config, t: Topic, s: int, same: bool)
    requires Simulates(w, c, t) && Possible(c, BeginTake(s, same))
    ensures Simulates(w, Do(w, c, BeginTake(s, same)), t)
  {
    hide Consistent, Overlay, BackAt, Wanted, Pending;
    OverlayShape(t, c.jobs);
    var q, n := t.subs[s], |t.entries|;
    SilentChange(t, c.jobs, s, Taking(same, n, n, 0));
    BackStarts(w, Solo(t, s), q, TakeFloor(q, same));
    assert JobOk(w, t, s, Taking(same, n, n, 0));
  }

  lemma TakeWalkSimulates(w: World, c: Config, t: Topic, s: int)
    requires Simulates(w, c, t) && Possible(c, Advance(s)) && c.jobs[s].Taking?
    ensures Simulates(w, Do(w, c, Advance(s)), t)
  {
    hide Consistent, Overlay, BackAt, BackEnd, Deliverable, Pending, Marked;
    var q, u, j := t.subs[s], Solo(t, s), c.jobs[s];
    OverlayShape(t, c.jobs);
    SoloConsistent(t, s);
    var p := TakeStep(w, c.topic, q, j.same, j.back, j.node, j.num);
    if j.back > 0 && j.num < q.depth {
      BackStep(w, u, q, TakeFloor(q, j.same), j.back, j.node, j.num);
      SoloDeliverable(w, t, s, t.entries[j.back - 1]);
      SameDeliverable(w, t, c.topic, q, t.entries[j.back - 1], c.topic.entries[j.back - 1]);
    }
    if p.Chosen? {
      BackStops(w, u, q, TakeFloor(q, j.same), j.back, j.node, j.num);
    }
    SilentChange(t, c.jobs, s, p);
    assert JobOk(w, t, s, p);
  }

  /** What a take has chosen is what it would have chosen alone, and its bit is free unless it may be set. */
  lemma ChosenCandidate(w: World, t: Topic, s: int, same: bool, node: nat, num: nat)
    requires Consistent(t) && s in t.subs && BackEnd(w, Solo(t, s), t.subs[s], TakeFloor(t.subs[s], same), node, num)
    ensures node <= |t.entries|
    ensures TakeCandidate(w, t, t.subs[s], same) == if node < |t.entries| then [t.entries[node]] else []
    ensures node < |t.entries| && s in t.entries[node].refs ==> same
  {
    hide CountsOk, IdsOk, Filter, Deliverable, TakeCandidate;
    var u, q := Solo(t, s), t.subs[s];
    var candidate := TakeCandidate(w, t, q, same);
    SoloConsistent(t, s);
    SoloSubscriber(t, s);
    TakeOldest(w, u, s, same, node, num);
    SoloTake(w, t, s, same);
    SoloEntry(t, s, node);
    BareReply(candidate);
    if node < |t.entries| {
      assert candidate == [candidate[0]] && Bare(candidate[0]) == Bare(t.entries[node]);
      CandidateFromStore(w, t, q, same);
      assert candidate[0] in candidate;
      var k :| 0 <= k < |t.entries| && t.entries[k] == candidate[0];
      BareDistinct(t.entries, k, node);
      assert t.entries[node] in t.entries && HoldersOk(t.subs, t.entries[node]);
    }
  }

  lemma CandidateFromStore(w: World, t: Topic, q: Subscriber, same: bool)
    ensures forall e :: e in TakeCandidate(w, t, q, same) ==> e in t.entries
  {
    hide Deliverable, Filter;
    FilterMembers(t.entries, Wanted(w, t, q, TakeFloor(q, same)));
  }

  /** Claiming the candidate in the shared store is handing it out in the serial one. */
  lemma ClaimOverlay(t: Topic, jobs: map<int, Phase>, s: int, k: nat)
    requires EntriesOk(t) && s in t.subs && s in jobs && HandedBy(jobs[s]) == [] && k < |t.entries|
    ensures var o := Overlay(t, jobs);
      |o.entries| == |t.entries|
      && Advanced(SetBit(o, k, s), s, [o.entries[k]]) == Overlay(HandedOut(t, s, [t.entries[k]]), jobs - {s})
  {
    hide Overlay, Pending, Ascending;
    var v := HandedOut(t, s, [t.entries[k]]);
    OverlayShape(t, jobs);
    OverlayShape(v, jobs - {s});
    var a, b := SetBit(Overlay(t, jobs), k, s), Overlay(v, jobs - {s});
    forall i | 0 <= i < |t.entries| ensures a.entries[i] == b.entries[i] {
      var e := t.entries[i];
      BareDistinct(t.entries, i, k);
      PendingIff(jobs, Bare(e), s);
      PendingWithout(jobs, s, Bare(e));
      assert v.entries[i] == if i == k then e.(refs := e.refs + {s}) else e;
      assert Bare(v.entries[i]) == Bare(e);
    }
    assert a.entries == b.entries;
  }

  lemma NothingClaimed(t: Topic, jobs: map<int, Phase>, s: int)
    requires s in jobs && HandedBy(jobs[s]) == []
    ensures Overlay(t, jobs - {s}) == Overlay(t, jobs)
  {
    hide Pending;
    forall i | 0 <= i < |t.entries|
      ensures Pending(jobs - {s}, Bare(t.entries[i])) == Pending(jobs, Bare(t.entries[i]))
    {
      PendingIff(jobs, Bare(t.entries[i]), s);
      PendingWithout(jobs, s, Bare(t.entries[i]));
    }
    assert Overlay(t, jobs - {s}).entries == Overlay(t, jobs).entries;
  }

  /** The claim itself: no failure, the candidate in the reply, and the serial take in the store. */
  lemma ClaimTakes(w: World, c: Config, t: Topic, s: int)
    requires Simulates(w, c, t) && Possible(c, Claim(s))
    ensures s in t.subs && !ClaimFails(c, s)
    ensures var same := c.jobs[s].same;
      && Do(w, c, Claim(s)) == Config(Overlay(Take(w, t, s, same), c.jobs - {s}), c.jobs - {s})
      && Finished(w, c, Claim(s)) == [(TakeCall(s, same), SerialOutcome(w, t, TakeCall(s, same)))]
  {
    hide Consistent, Overlay, JobOk, TakeCandidate, BareAll, HandedOut, BackEnd, Pending, SetBit, Advanced;
    var j := c.jobs[s];
    ChosenJob(w, t, s, j);
    OverlayShape(t, c.jobs);
    ChosenCandidate(w, t, s, j.same, j.node, j.num);
    if j.node < |t.entries| {
      PendingIff(c.jobs, Bare(t.entries[j.node]), s);
      ClaimOverlay(t, c.jobs, s, j.node) by { StoreEntriesOk(t); }
      assert IdsOf([c.topic.entries[j.node]]) == IdsOf([t.entries[j.node]]);
      assert AddrsOf([c.topic.entries[j.node]]) == AddrsOf([t.entries[j.node]]);
    } else {
      NothingClaimed(t, c.jobs, s);
      NothingHandedOut(t, s);
    }
  }

  lemma ClaimSimulates(w: World, c: Config, t: Topic, s: int)
    requires Simulates(w, c, t) && Possible(c, Claim(s))
    ensures s in t.subs && Simulates(w, Do(w, c, Claim(s)), Take(w, t, s, c.jobs[s].same))
    ensures Finished(w, c, Claim(s)) ==
      [(TakeCall(s, c.jobs[s].same), SerialOutcome(w, t, TakeCall(s, c.jobs[s].same)))]
  {
    hide Consistent, Overlay, JobOk, TakeCandidate, BareAll, HandedOut, Do, Finished, SerialOutcome;
    ClaimTakes(w, c, t, s);
    TakeKeeps(w, t, s, c.jobs[s].same);
    HandedOutBare(t, s, TakeCandidate(w, t, t.subs[s], c.jobs[s].same));
    OtherJobsKept(w, c, t, Take(w, t, s, c.jobs[s].same), c.jobs - {s}) by {
      forall x | x in c.jobs ensures x in t.subs {
        JobSubscriber(w, t, x, c.jobs[x]);
      }
    }
  }

  lemma ChosenJob(w: World, t: Topic, s: int, p: Phase)
    requires JobOk(w, t, s, p) && p.Chosen?
    ensures s in t.subs && BackEnd(w, Solo(t, s), t.subs[s], TakeFloor(t.subs[s], p.same), p.node, p.num)
  {
  }

  lemma NothingHandedOut(t: Topic, s: int)
    requires s in t.subs
    ensures HandedOut(t, s, []) == t
  {
  }

  // ---------- Every interleaving is serial ----------

  lemma MoveSimulates(w: World, c: Config, m: Move, t: Topic)
    requires Simulates(w, c, t) && Possible(c, m)
    ensures var done := Finished(w, c, m);
      if done == [] then Simulates(w, Do(w, c, m), t)
      else |done| == 1 && done[0].1 == SerialOutcome(w, t, done[0].0)
           && Simulates(w, Do(w, c, m), SerialState(w, t, done[0].0))
  {
    hide Simulates, Release, Receive, Take;
    match m {
      case Begin(s) => BeginSimulates(w, c, t, s);
      case BeginTake(s, same) => BeginTakeSimulates(w, c, t, s, same);
      case Advance(s) =>
        if c.jobs[s].Backward? {
          BackwardSimulates(w, c, t, s);
        } else if c.jobs[s].Taking? {
          TakeWalkSimulates(w, c, t, s);
        } else {
          ForwardSimulates(w, c, t, s);
        }
      case Complete(s) => CompleteSimulates(w, c, t, s);
      case Claim(s) => ClaimSimulates(w, c, t, s);
      case ReleaseRef(s, id) => ReleaseSimulates(w, c, t, s, id);
    }
  }

  ghost predicate Interleaving(w: World, configs: seq<Config>, moves: seq<Move>) {
    && |configs| == |moves| + 1
    && forall i :: 0 <= i < |moves| ==> Possible(configs[i], moves[i]) && configs[i + 1] == Do(w, configs[i], moves[i])
  }

  /** The calls completed by the first `n` moves, in order of completion, with what they returned. */
  ghost function Completed(w: World, configs: seq<Config>, moves: seq<Move>, n: nat): seq<(Call, Outcome)>
    requires Interleaving(w, configs, moves) && n <= |moves|
  {
    if n == 0 then [] else Completed(w, configs, moves, n - 1) + Finished(w, configs[n - 1], moves[n - 1])
  }

  lemma {:induction false} CompletedSerially(w: World, configs: seq<Config>, moves: seq<Move>, n: nat)
      returns (t: Topic)
    requires Interleaving(w, configs, moves) && n <= |moves|
    requires configs[0].jobs == map[] && Consistent(configs[0].topic)
    ensures Serially(w, configs[0].topic, Completed(w, configs, moves, n), t) && Simulates(w, configs[n], t)
  {
    hide Simulates, Possible, Do, Finished, SerialState, SerialOutcome;
    if n == 0 {
      t := configs[0].topic;
      NothingPending(t);
      assert Simulates(w, configs[0], t) by { StartSimulates(w, configs[0]); }
    } else {
      var v := CompletedSerially(w, configs, moves, n - 1);
      var done := Finished(w, configs[n - 1], moves[n - 1]);
      MoveSimulates(w, configs[n - 1], moves[n - 1], v);
      assert configs[(n - 1) + 1] == Do(w, configs[n - 1], moves[n - 1]);
      var before := Completed(w, configs, moves, n - 1);
      if done == [] {
        t := v;
        assert before + done == before;
      } else {
        t := SerialState(w, v, done[0].0);
        assert (before + done)[..|before + done| - 1] == before;
      }
    }
  }

  lemma StartSimulates(w: World, c: Config)
    requires c.jobs == map[] && Consistent(c.topic)
    ensures Simulates(w, c, c.topic)
  {
    NothingPending(c.topic);
  }

  /**
    Any interleaving of the steps of receives and takes by distinct subscribers and of releases, once
    every receive and take has completed, leaves the store and has returned the results of running the same calls
    one after the other in order of completion.
   */
  lemma InterleavingIsSerial(w: World, configs: seq<Config>, moves: seq<Move>)
    requires Interleaving(w, configs, moves)
    requires configs[0].jobs == map[] && Consistent(configs[0].topic) && configs[|moves|].jobs == map[]
    ensures Serially(w, configs[0].topic, Completed(w, configs, moves, |moves|), configs[|moves|].topic)
  {
    hide Serially, Completed, Interleaving;
    var t := CompletedSerially(w, configs, moves, |moves|);
    NothingPending(t);
  }

  /** No receive or take ever meets a bit that is an error to it, nor an entry without its publisher. */
  lemma NoReceiveFails(w: World, configs: seq<Config>, moves: seq<Move>, n: nat, s: int)
    requires Interleaving(w, configs, moves) && n <= |moves|
    requires configs[0].jobs == map[] && Consistent(configs[0].topic) && s in configs[n].jobs
    ensures !configs[n].jobs[s].Failed?
  {
    hide Serially, Completed;
    var t := CompletedSerially(w, configs, moves, n);
    assert JobOk(w, t, s, configs[n].jobs[s]);
  }
}
