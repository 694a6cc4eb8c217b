// Every operation on one topic store keeps the store consistent.

module StoreInvariant {
  import opened Base
  import opened Seqs
  import opened Sets
  import opened TopicModel

  // ---------- Ascending sequences and counting ----------

  lemma {:induction false} FilterAscending(es: seq<Entry>, f: Entry -> bool)
    requires Ascending(es)
    ensures Ascending(Filter(es, f))
  {
    if es != [] {
      var init := es[..|es| - 1];
      FilterAscending(init, f);
      forall e | e in Filter(init, f) ensures e.id < es[|es| - 1].id {
        FilterMember(init, f, e);
      }
    }
  }

  lemma SameIdSameEntry(es: seq<Entry>, a: Entry, b: Entry)
    requires Ascending(es) && a in es && b in es && a.id == b.id
    ensures a == b
  {
    var i :| 0 <= i < |es| && es[i] == a;
    var j :| 0 <= j < |es| && es[j] == b;
    assert i == j;
  }

  /** Counting looks at publishers only. */
  lemma {:induction false} CountSamePublishers(es: seq<Entry>, fs: seq<Entry>, p: int)
    requires |es| == |fs|
    requires forall i :: 0 <= i < |es| ==> es[i].publisher == fs[i].publisher
    ensures Count(es, p) == Count(fs, p)
  {
    if es != [] {
      CountSamePublishers(es[..|es| - 1], fs[..|fs| - 1], p);
    }
  }

  lemma StoreAscending(t: Topic)
    requires Consistent(t)
    ensures Ascending(t.entries)
  {
  }

  lemma StoreEntriesOk(t: Topic)
    requires Consistent(t)
    ensures EntriesOk(t)
  {
  }

  lemma CountPositive(es: seq<Entry>, p: int)
    ensures Count(es, p) > 0 <==> exists e :: e in es && e.publisher == p
  {
    FilterMembers(es, OwnedBy(p));
    if Count(es, p) > 0 {
      assert Filter(es, OwnedBy(p))[0] in es;
    }
    if e :| e in es && e.publisher == p {
      assert OwnedBy(p)(e);
      assert e in Filter(es, OwnedBy(p));
    }
  }

  lemma CountAppend(es: seq<Entry>, e: Entry, p: int)
    ensures Count(es + [e], p) == Count(es, p) + if e.publisher == p then 1 else 0
  {
    FilterAppend(es, e, OwnedBy(p));
  }

  // ---------- Handing out ----------

  /** A batch a subscriber may be handed: stored entries, ascending, none older than the last one received. */
  ghost predicate Takeable(t: Topic, s: int, batch: seq<Entry>) {
    && s in t.subs
    && Ascending(batch)
    && (forall e :: e in batch ==> e in t.entries && t.subs[s].latest <= e.id)
  }

  lemma HandedOutKeeps(t: Topic, s: int, batch: seq<Entry>)
    requires Consistent(t) && Takeable(t, s, batch)
    ensures Consistent(HandedOut(t, s, batch))
  {
    hide Filter;
    if batch != [] {
      var u := HandedOut(t, s, batch);
      var last := batch[|batch| - 1];
      assert last in batch;
      forall i | 0 <= i < |u.entries|
        ensures u.entries[i].id == t.entries[i].id && u.entries[i].publisher == t.entries[i].publisher
        ensures HoldersOk(u.subs, u.entries[i])
      {
        assert t.entries[i] in t.entries && HoldersOk(t.subs, t.entries[i]);
      }
      forall p | p in u.pubs ensures u.pubs[p].entriesNum == Count(u.entries, p) {
        CountSamePublishers(t.entries, u.entries, p);
      }
      assert u.subs.Keys == t.subs.Keys;
      assert |u.subs| == |u.subs.Keys| && |t.subs| == |t.subs.Keys|;
    }
  }

  lemma NewestTakeable(w: World, t: Topic, s: int, floor: int, n: nat)
    requires Consistent(t) && s in t.subs && t.subs[s].latest <= floor
    requires n <= |Newest(w, t, t.subs[s], floor)|
    ensures Takeable(t, s, Newest(w, t, t.subs[s], floor)[..n])
    ensures forall e :: e in Newest(w, t, t.subs[s], floor) ==> floor <= e.id && Deliverable(w, t, t.subs[s], e)
  {
    var f := Wanted(w, t, t.subs[s], floor);
    FilterAscending(t.entries, f);
    FilterMembers(t.entries, f);
    forall e | e in Newest(w, t, t.subs[s], floor) ensures e in Filter(t.entries, f) && f(e) {}
  }

  lemma ReceiveKeeps(w: World, t: Topic, s: int)
    requires Consistent(t) && s in t.subs
    ensures Consistent(Receive(w, t, s))
  {
    var window := Window(w, t, t.subs[s]);
    NewestTakeable(w, t, s, t.subs[s].latest + 1, Min(MAX_RECEIVE_NUM, |window|));
    HandedOutKeeps(t, s, Batch(w, t, t.subs[s]));
  }

  lemma TakeKeeps(w: World, t: Topic, s: int, allowSame: bool)
    requires Consistent(t) && s in t.subs
    ensures Consistent(Take(w, t, s, allowSame))
  {
    var floor := TakeFloor(t.subs[s], allowSame);
    NewestTakeable(w, t, s, floor, Min(1, |Newest(w, t, t.subs[s], floor)|));
    HandedOutKeeps(t, s, TakeCandidate(w, t, t.subs[s], allowSame));
  }

  lemma ReleaseKeeps(t: Topic, s: int, id: int)
    requires Consistent(t)
    ensures Consistent(Release(t, s, id).0)
  {
    hide Filter;
    var u := Release(t, s, id).0;
    forall i | 0 <= i < |u.entries|
      ensures u.entries[i].id == t.entries[i].id && u.entries[i].publisher == t.entries[i].publisher
      ensures u.entries[i].refs <= t.entries[i].refs && HoldersOk(u.subs, u.entries[i])
    {
      assert t.entries[i] in t.entries && HoldersOk(t.subs, t.entries[i]);
    }
    forall p | p in u.pubs ensures u.pubs[p].entriesNum == Count(u.entries, p) {
      CountSamePublishers(t.entries, u.entries, p);
    }
  }

  // ---------- Publishing ----------

  lemma InsertedKeeps(t: Topic, p: int, addr: int)
    requires Consistent(t) && p in t.pubs
    ensures Consistent(Inserted(t, p, addr))
  {
    hide Filter, Count;
    var u := Inserted(t, p, addr);
    forall q | q in u.pubs ensures u.pubs[q].entriesNum == Count(u.entries, q) {
      CountAppend(t.entries, Entry(t.nextEntry, p, addr, {}), q);
    }
    SameDomainSameSize(u.pubs, t.pubs);
  }

  /** What is reclaimed: own, unreferenced, stored entries, in order, and never the newest ones within the depth. */
  lemma ReclaimableFacts(t: Topic, p: int)
    requires Ascending(t.entries) && p in t.pubs
    ensures Ascending(Reclaimable(t, p)) && |Reclaimable(t, p)| <= MAX_RELEASE_NUM
    ensures forall e :: e in Reclaimable(t, p) ==>
      e in t.entries && e.publisher == p && e.refs == {} && e in Excess(t, p)
  {
    var own := Filter(t.entries, OwnedBy(p));
    FilterAscending(t.entries, OwnedBy(p));
    FilterMembers(t.entries, OwnedBy(p));
    FilterAscending(Excess(t, p), Unreferenced());
    FilterMembers(Excess(t, p), Unreferenced());
    forall e | e in Reclaimable(t, p)
      ensures e in t.entries && e.publisher == p && e.refs == {} && e in Excess(t, p)
    {
      assert e in Filter(Excess(t, p), Unreferenced());
      assert Unreferenced()(e);
      assert e in own && OwnedBy(p)(e);
    }
  }

  /** Deleting k distinct entries of one publisher lowers its count by k and no other count. */
  lemma {:induction false} CountWithout(es: seq<Entry>, victims: seq<Entry>, p: int, q: int)
    requires Ascending(es) && Ascending(victims)
    requires forall e :: e in victims ==> e in es && e.publisher == p
    ensures Count(Filter(es, NotAmong(victims)), q) == Count(es, q) - if q == p then |victims| else 0
  {
    if es == [] {
      Inhabited(victims);
    } else {
      hide Filter, Count, NotAmong;
      var init, last := es[..|es| - 1], es[|es| - 1];
      assert es == init + [last];
      CountAppend(init, last, q);
      if last in victims {
        LastVictim(init, last, victims);
        var rest := victims[..|victims| - 1];
        CountWithout(init, rest, p, q);
        assert victims == rest + [last];
        DropLastVictim(init, last, rest);
      } else {
        CountWithout(init, victims, p, q);
        KeepLast(init, last, victims, q);
      }
    }
  }

  lemma KeepLast(init: seq<Entry>, last: Entry, victims: seq<Entry>, q: int)
    requires last !in victims
    ensures Count(Filter(init + [last], NotAmong(victims)), q)
         == Count(Filter(init, NotAmong(victims)), q) + if last.publisher == q then 1 else 0
  {
    hide Filter, Count;
    FilterAppend(init, last, NotAmong(victims));
    CountAppend(Filter(init, NotAmong(victims)), last, q);
  }

  lemma DropLastVictim(init: seq<Entry>, last: Entry, rest: seq<Entry>)
    requires forall i :: 0 <= i < |init| ==> init[i] != last
    ensures Filter(init + [last], NotAmong(rest + [last])) == Filter(init, NotAmong(rest))
  {
    hide Filter;
    FilterAppend(init, last, NotAmong(rest + [last]));
    FilterAgree(init, NotAmong(rest + [last]), NotAmong(rest));
  }

  lemma LastVictim(init: seq<Entry>, last: Entry, victims: seq<Entry>)
    requires Ascending(init + [last]) && Ascending(victims) && last in victims
    requires forall e :: e in victims ==> e in init + [last]
    ensures var k := |victims| - 1;
      && victims[k] == last
      && Ascending(victims[..k])
      && (forall e :: e in victims[..k] ==> e in init)
      && (forall i :: 0 <= i < |init| ==> init[i] != last)
  {
    var es := init + [last];
    assert es[|init|] == last;
    assert forall i :: 0 <= i < |init| ==> es[i] == init[i] && es[i].id < es[|init|].id;
    var k :| 0 <= k < |victims| && victims[k] == last;
    var e := victims[|victims| - 1];
    assert e in victims && e in es;
    assert k == |victims| - 1;
    forall e | e in victims[..k] ensures e in init {
      assert e in victims && e.id < last.id;
    }
  }

  lemma WithoutKeeps(t: Topic, p: int, victims: seq<Entry>)
    requires Consistent(t) && p in t.pubs && Ascending(victims)
    requires forall e :: e in victims ==> e in t.entries && e.publisher == p
    ensures Consistent(Without(t, p, victims))
    ensures |victims| <= t.pubs[p].entriesNum
  {
    hide Filter;
    var u := Without(t, p, victims);
    FilterAscending(t.entries, NotAmong(victims));
    FilterMembers(t.entries, NotAmong(victims));
    CountWithout(t.entries, victims, p, p);
    forall q | q in u.pubs ensures u.pubs[q].entriesNum == Count(u.entries, q) {
      CountWithout(t.entries, victims, p, q);
    }
    SameDomainSameSize(u.pubs, t.pubs);
  }

  lemma PublishedKeeps(t: Topic, p: int, addr: int)
    requires Consistent(t) && p in t.pubs
    ensures Consistent(Published(t, p, addr))
  {
    InsertedKeeps(t, p, addr);
    var t1 := Inserted(t, p, addr);
    ReclaimableFacts(t1, p);
    WithoutKeeps(t1, p, Reclaimable(t1, p));
  }

  // ---------- Joining ----------

  lemma AddSubscriberKeeps(t: Topic, domain: nat, a: SubArgs, fault: Fault)
    requires Consistent(t)
    ensures Consistent(AddSubscriber(t, domain, a, fault).0)
  {
    hide Filter, Count;
    var u := AddSubscriber(t, domain, a, fault).0;
    if u != t {
      OneMore(t.subs, t.nextId, NewSubscriber(t, domain, a));
    }
  }

  lemma AddPublisherKeeps(t: Topic, domain: nat, a: PubArgs, fault: Fault)
    requires Consistent(t)
    ensures Consistent(AddPublisher(t, domain, a, fault).0)
  {
    var u := AddPublisher(t, domain, a, fault).0;
    if u.pubs != t.pubs {
      assert Count(t.entries, t.nextId) == 0 by {
        CountPositive(t.entries, t.nextId);
      }
      hide Filter, Count;
      SameDomainSameSize(u.subs, t.subs);
      OneMore(t.pubs, t.nextId, u.pubs[t.nextId]);
    }
  }

  // ---------- Leaving ----------

  /** Membership in a swept tree, entry by entry. */
  lemma SweptMember(es: seq<Entry>, gone: set<int>, doomed: set<int>, e: Entry)
    ensures e in Swept(es, gone, doomed) <==>
      && (exists i :: 0 <= i < |es| && e == es[i].(refs := es[i].refs - gone))
      && !(e.refs == {} && e.publisher in doomed)
  {
    FilterMember(Cleared(es, gone), Survives(doomed), e);
    var cleared := Cleared(es, gone);
    if e in cleared {
      var i :| 0 <= i < |cleared| && cleared[i] == e;
      assert e == es[i].(refs := es[i].refs - gone);
    }
    if i :| 0 <= i < |es| && e == es[i].(refs := es[i].refs - gone) {
      assert cleared[i] == e;
    }
  }

  lemma SweptEntryOk(t: Topic, gone: set<int>, doomed: set<int>, e: Entry)
    requires Consistent(t) && e in Swept(t.entries, gone, doomed)
    ensures 0 <= e.id < t.nextEntry && e.publisher in Recounted(t.pubs, doomed, Swept(t.entries, gone, doomed))
    ensures HoldersOk(t.subs - gone, e) && e.refs !! gone
    ensures e.publisher in doomed ==> e.refs != {}
  {
    hide Filter, Count, Swept;
    SweptMember(t.entries, gone, doomed, e);
    var i :| 0 <= i < |t.entries| && e == t.entries[i].(refs := t.entries[i].refs - gone);
    assert t.entries[i] in t.entries;
    assert HoldersOk(t.subs, t.entries[i]);
    CountPositive(Swept(t.entries, gone, doomed), e.publisher);
  }

  lemma SweepKeeps(t: Topic, gone: set<int>, doomed: set<int>)
    requires Consistent(t)
    ensures Consistent(Sweep(t, gone, doomed))
  {
    hide Filter, Count, Swept, IdsOk;
    var u := Sweep(t, gone, doomed);
    SweptAscending(t, gone, doomed);
    SweepKeepsIds(t, gone, doomed);
    forall e | e in u.entries
      ensures 0 <= e.id < u.nextEntry && e.publisher in u.pubs && HoldersOk(u.subs, e)
    {
      SweptEntryOk(t, gone, doomed, e);
    }
  }

  lemma SweepKeepsIds(t: Topic, gone: set<int>, doomed: set<int>)
    requires IdsOk(t)
    ensures IdsOk(Sweep(t, gone, doomed))
  {
    hide Filter, Count, Swept;
    var u := Sweep(t, gone, doomed);
    assert u.subs.Keys <= t.subs.Keys && u.pubs.Keys <= t.pubs.Keys;
    SubsetCardinality(u.subs.Keys, t.subs.Keys);
    SubsetCardinality(u.pubs.Keys, t.pubs.Keys);
  }

  lemma SweptAscending(t: Topic, gone: set<int>, doomed: set<int>)
    requires Ascending(t.entries)
    ensures Ascending(Swept(t.entries, gone, doomed))
  {
    FilterAscending(Cleared(t.entries, gone), Survives(doomed));
  }

  // ---------- Dead publishers ----------

  /** After a sweep, a doomed publisher that is still there owns entries, and each of them is referenced. */
  lemma SweepLeavesReferenced(t: Topic, gone: set<int>, doomed: set<int>)
    requires Consistent(t)
    ensures var u := Sweep(t, gone, doomed);
      && (forall p :: p in u.pubs && p in doomed ==> u.pubs[p].entriesNum > 0)
      && (forall e :: e in u.entries && e.publisher in doomed ==> e.refs != {})
      && (forall e :: e in u.entries ==> e.refs !! gone)
      && (u.subs == map[] ==> forall p :: p in doomed ==> p !in u.pubs)
  {
    hide Filter, Count, Swept;
    var u := Sweep(t, gone, doomed);
    forall e | e in u.entries
      ensures e.refs !! gone && HoldersOk(u.subs, e) && (e.publisher in doomed ==> e.refs != {})
    {
      SweptEntryOk(t, gone, doomed, e);
    }
    forall p | p in u.pubs && p in doomed
      ensures u.pubs[p].entriesNum > 0 && u.subs != map[]
    {
      CountPositive(u.entries, p);
      var e :| e in u.entries && e.publisher == p;
      assert HoldersOk(u.subs, e);
      var s := AnyOf(e.refs);
      assert s in u.subs;
    }
  }

  lemma RemoveSubscriberNoStaleDead(procs: map<int, Process>, t: Topic, s: int)
    requires Consistent(t) && NoStaleDead(procs, t)
    ensures NoStaleDead(procs, RemoveSubscriber(procs, t, s))
  {
    hide Filter, Count, Consistent;
    SweepLeavesReferenced(t, {s}, DeadPublishers(procs, t));
    var u := RemoveSubscriber(procs, t, s);
    assert DeadPublishers(procs, u) <= DeadPublishers(procs, t);
  }

  /** A sweep that doomed only some publishers keeps the others' entries. */
  lemma SweepKeepsOthers(t: Topic, gone: set<int>, doomed: set<int>, p: int)
    requires Consistent(t) && p in t.pubs && p !in doomed
    ensures var u := Sweep(t, gone, doomed);
      p in u.pubs && u.pubs[p] == t.pubs[p]
  {
    hide Filter;
    SurvivorsCount(Cleared(t.entries, gone), doomed, p);
    CountSamePublishers(t.entries, Cleared(t.entries, gone), p);
  }

  lemma {:induction false} SurvivorsCount(es: seq<Entry>, doomed: set<int>, p: int)
    requires p !in doomed
    ensures Count(Filter(es, Survives(doomed)), p) == Count(es, p)
  {
    if es != [] {
      var init := es[..|es| - 1];
      SurvivorsCount(init, doomed, p);
      var last := es[|es| - 1];
      assert es == init + [last];
      hide Filter, Count;
      FilterAppend(init, last, Survives(doomed));
      CountAppend(init, last, p);
      CountAppend(Filter(init, Survives(doomed)), last, p);
      if !Survives(doomed)(last) {
        assert last.publisher != p;
        assert Filter(es, Survives(doomed)) == Filter(init, Survives(doomed));
      }
    } else {
      assert Filter(es, Survives(doomed)) == [];
    }
  }

  lemma RemovePublisherNoStaleDead(procs: map<int, Process>, t: Topic, p: int)
    requires Consistent(t) && NoStaleDead(procs, t)
    ensures NoStaleDead(procs, RemovePublisher(t, p))
  {
    hide Filter, Count, Consistent;
    var u := RemovePublisher(t, p);
    SweepLeavesReferenced(t, {}, {p});
    forall q | q in u.pubs && Dead(procs, u.pubs[q].pid) ensures u.pubs[q].entriesNum > 0 {
      if q != p {
        SweepKeepsOthers(t, {}, {p}, q);
      }
    }
    assert u.subs == t.subs;
    assert DeadPublishers(procs, u) <= DeadPublishers(procs, t);
  }

  /** Exit of `pid`: `before` and `after` differ only in that `pid` died. */
  ghost predicate OnlyDied(before: map<int, Process>, after: map<int, Process>, pid: int) {
    && Dead(after, pid)
    && (forall q :: q != pid ==> (Dead(before, q) <==> Dead(after, q)))
  }

  lemma ExitNoStaleDead(before: map<int, Process>, after: map<int, Process>, t: Topic, pid: int)
    requires Consistent(t) && NoStaleDead(before, t) && OnlyDied(before, after, pid)
    ensures NoStaleDead(after, Exit(after, t, pid))
  {
    hide Filter;
    var gone := SubscribersOf(t, pid);
    var doomed := if gone == {} then PublishersOf(t, pid) else DeadPublishers(after, t);
    var u := Exit(after, t, pid);
    SweepLeavesReferenced(t, gone, doomed);
    forall q | q in u.pubs && Dead(after, u.pubs[q].pid) ensures u.pubs[q].entriesNum > 0 {
      if q !in doomed {
        SweepKeepsOthers(t, gone, doomed, q);
      }
    }
    if u.subs == map[] && gone == {} {
      assert u.subs == t.subs;
      assert DeadPublishers(before, t) == {};
      assert DeadPublishers(after, u) <= doomed;
    }
  }

  /** What exit cleanup leaves behind: nothing of a subscriber, and only referenced entries of a publisher. */
  lemma ExitReclaims(before: map<int, Process>, after: map<int, Process>, t: Topic, pid: int)
    requires Consistent(t) && NoStaleDead(before, t) && OnlyDied(before, after, pid)
    ensures var u := Exit(after, t, pid);
      && SubscribersOf(u, pid) == {}
      && (forall e :: e in u.entries ==> e.refs !! SubscribersOf(t, pid))
      && (forall p :: p in PublishersOf(u, pid) ==> u.pubs[p].entriesNum > 0)
      && (forall e :: e in u.entries && e.publisher in PublishersOf(u, pid) ==> e.refs != {})
      && Exit(after, u, pid) == u
  {
    hide Filter;
    var gone := SubscribersOf(t, pid);
    var doomed := if gone == {} then PublishersOf(t, pid) else DeadPublishers(after, t);
    var u := Exit(after, t, pid);
    SweepKeeps(t, gone, doomed);
    SweepLeavesReferenced(t, gone, doomed);
    assert PublishersOf(u, pid) <= doomed;
    SweepOfSettled(u, PublishersOf(u, pid));
  }

  /** Sweeping where every doomed publisher owns only referenced entries changes nothing. */
  lemma SweepOfSettled(t: Topic, doomed: set<int>)
    requires Consistent(t)
    requires forall p :: p in doomed && p in t.pubs ==> t.pubs[p].entriesNum > 0
    requires forall e :: e in t.entries && e.publisher in doomed ==> e.refs != {}
    ensures Sweep(t, {}, doomed) == t
  {
    hide Filter;
    var cleared := Cleared(t.entries, {});
    forall i | 0 <= i < |cleared| ensures cleared[i] == t.entries[i] {
      assert t.entries[i].refs - {} == t.entries[i].refs;
    }
    assert cleared == t.entries;
    forall i | 0 <= i < |cleared| ensures Survives(doomed)(cleared[i]) {
      assert cleared[i] in t.entries;
    }
    FilterAll(cleared, Survives(doomed));
    assert Recounted(t.pubs, doomed, t.entries) == t.pubs;
    assert t.subs - {} == t.subs;
  }
}
