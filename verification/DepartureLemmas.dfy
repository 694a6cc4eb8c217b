// How each step of the walks for departing endpoints advances the sweep they compute.

module DepartureLemmas {
  import opened Base
  import opened Seqs
  import opened Sets
  import opened TopicModel
  import opened StoreInvariant

  // ---------- Departure: the sweep ----------

  lemma SweptStep(es: seq<Entry>, k: nat, gone: set<int>, doomed: set<int>)
    requires k < |es|
    ensures var e := es[k].(refs := es[k].refs - gone);
      Swept(es[..k + 1], gone, doomed)
        == if e.refs == {} && e.publisher in doomed then Swept(es[..k], gone, doomed)
           else Swept(es[..k], gone, doomed) + [e]
  {
    hide Filter;
    var e := es[k].(refs := es[k].refs - gone);
    assert Cleared(es[..k + 1], gone) == Cleared(es[..k], gone) + [e];
    FilterAppend(Cleared(es[..k], gone), e, Survives(doomed));
  }

  lemma SweptNil(es: seq<Entry>, gone: set<int>, doomed: set<int>)
    requires es == []
    ensures Swept(es, gone, doomed) == []
  {
  }

  lemma CountConcat(a: seq<Entry>, b: seq<Entry>, p: int)
    ensures Count(a + b, p) == Count(a, p) + Count(b, p)
  {
    FilterConcat(a, b, OwnedBy(p));
  }

  /** Clearing bits of the entry at `i` changes no count; removing it lowers its publisher's by one. */
  lemma CountAround(es: seq<Entry>, i: nat, refs: set<int>, p: int)
    requires i < |es|
    ensures Count(es[i := es[i].(refs := refs)], p) == Count(es, p)
    ensures Count(es[..i] + es[i + 1..], p) == Count(es, p) - if es[i].publisher == p then 1 else 0
  {
    var e := es[i].(refs := refs);
    CountSamePublishers(es, es[i := e], p);
    hide Filter, Count;
    assert es == (es[..i] + [es[i]]) + es[i + 1..];
    CountConcat(es[..i] + [es[i]], es[i + 1..], p);
    CountAppend(es[..i], es[i], p);
    CountConcat(es[..i], es[i + 1..], p);
  }

  lemma RecountedAround(pubs: map<int, Publisher>, doomed: set<int>, es: seq<Entry>, i: nat, refs: set<int>)
    requires i < |es|
    ensures Recounted(pubs, doomed, es[i := es[i].(refs := refs)]) == Recounted(pubs, doomed, es)
    ensures var p, fewer := es[i].publisher, es[..i] + es[i + 1..];
      var counted := Recounted(pubs, doomed, es);
      p in doomed && p in pubs ==>
        && p in counted && counted[p].entriesNum > 0
        && Recounted(pubs, doomed, fewer) ==
             if counted[p].entriesNum == 1 then counted - {p}
             else counted[p := counted[p].(entriesNum := counted[p].entriesNum - 1)]
  {
    hide Filter, Count;
    forall p ensures
      && Count(es[i := es[i].(refs := refs)], p) == Count(es, p)
      && Count(es[..i] + es[i + 1..], p) == Count(es, p) - if es[i].publisher == p then 1 else 0
    {
      CountAround(es, i, refs, p);
    }
    CountPositive(es, es[i].publisher);
  }

  /** Two sweeps for different subscribers are one sweep for both. */
  lemma {:induction false} SweptTwice(es: seq<Entry>, g: set<int>, h: set<int>, doomed: set<int>)
    ensures Swept(Swept(es, g, doomed), h, doomed) == Swept(es, g + h, doomed)
  {
    if es == [] {
      SweptNil(es, g, doomed);
      SweptNil(es, g + h, doomed);
      SweptNil(es, h, doomed);
    } else {
      hide Swept;
      var n := |es| - 1;
      SweptTwice(es[..n], g, h, doomed);
      assert es[..n + 1] == es;
      SweptStep(es, n, g, doomed);
      SweptStep(es, n, g + h, doomed);
      var e := es[n].(refs := es[n].refs - g);
      var front := Swept(es[..n], g, doomed);
      assert e.refs - h == es[n].refs - (g + h);
      if !(e.refs == {} && e.publisher in doomed) {
        assert (front + [e])[..|front|] == front && (front + [e])[..|front| + 1] == front + [e];
        SweptStep(front + [e], |front|, h, doomed);
      }
    }
  }

  /** Two sweeps for different publishers are one sweep for both. */
  lemma {:induction false} SweptBoth(es: seq<Entry>, d1: set<int>, d2: set<int>)
    ensures Swept(Swept(es, {}, d1), {}, d2) == Swept(es, {}, d1 + d2)
  {
    if es == [] {
      SweptNil(es, {}, d1);
      SweptNil(es, {}, d1 + d2);
      SweptNil(es, {}, d2);
    } else {
      hide Swept;
      var n := |es| - 1;
      SweptBoth(es[..n], d1, d2);
      assert es[..n + 1] == es;
      SweptStep(es, n, {}, d1);
      SweptStep(es, n, {}, d1 + d2);
      assert es[n].refs - {} == es[n].refs;
      var e := es[n];
      var front := Swept(es[..n], {}, d1);
      if !(e.refs == {} && e.publisher in d1) {
        assert (front + [e])[..|front|] == front && (front + [e])[..|front| + 1] == front + [e];
        SweptStep(front + [e], |front|, {}, d2);
      }
    }
  }

  // ---------- Departures: a subscriber's walk ----------

  /** The publisher table counts what the tree holds; `doomed` are the dead ones; `pubs0` is where it started. */
  ghost predicate SweepReady(procs: map<int, Process>, es: seq<Entry>, pubs: map<int, Publisher>,
                             pubs0: map<int, Publisher>, doomed: set<int>)
  {
    && pubs == Recounted(pubs0, doomed, es)
    && (forall p :: p in pubs0 ==> (p in doomed <==> Dead(procs, pubs0[p].pid)))
    && (forall e :: e in es ==> e.publisher in pubs0)
  }

  /** The walk stands on entry `k` of the original tree, entry `node` of what is left of it. */
  ghost predicate SweepAt(procs: map<int, Process>, es0: seq<Entry>, s: int, doomed: set<int>,
                          pubs0: map<int, Publisher>, k: nat, node: nat, es: seq<Entry>, pubs: map<int, Publisher>)
  {
    && k <= |es0|
    && node == |Swept(es0[..k], {s}, doomed)|
    && es == Swept(es0[..k], {s}, doomed) + es0[k..]
    && SweepReady(procs, es, pubs, pubs0, doomed)
  }

  lemma SweepStarts(procs: map<int, Process>, es0: seq<Entry>, s: int, doomed: set<int>,
                    pubs0: map<int, Publisher>, pubs: map<int, Publisher>)
    requires SweepReady(procs, es0, pubs, pubs0, doomed)
    ensures SweepAt(procs, es0, s, doomed, pubs0, 0, 0, es0, pubs)
  {
    hide SweepReady;
    SweptNil(es0[..0], {s}, doomed);
  }

  lemma SweepStep(procs: map<int, Process>, es0: seq<Entry>, s: int, doomed: set<int>,
                  pubs0: map<int, Publisher>, k: nat, node: nat, es: seq<Entry>, pubs: map<int, Publisher>)
    requires SweepAt(procs, es0, s, doomed, pubs0, k, node, es, pubs) && node < |es|
    ensures k < |es0| && es[node].publisher in pubs
    ensures var en := es[node].(refs := es[node].refs - {s}); var p := en.publisher;
      if en.refs != {} || !Dead(procs, pubs[p].pid)
      then SweepAt(procs, es0, s, doomed, pubs0, k + 1, node + 1, es[node := en], pubs)
      else
        && pubs[p].entriesNum > 0
        && SweepAt(procs, es0, s, doomed, pubs0, k + 1, node, es[node := en][..node] + es[node := en][node + 1..],
                   if pubs[p].entriesNum == 1 then pubs - {p}
                   else pubs[p := pubs[p].(entriesNum := pubs[p].entriesNum - 1)])
  {
    hide Swept, Recounted, Count;
    var front, rest := Swept(es0[..k], {s}, doomed), es0[k..];
    assert k < |es0| && es[node] == es0[k];
    SweptStep(es0, k, {s}, doomed);
    var en := es[node].(refs := es[node].refs - {s});
    assert rest == [es0[k]] + es0[k + 1..];
    assert es[node := en] == (front + [en]) + es0[k + 1..];
    assert es[node := en][..node] + es[node := en][node + 1..] == front + es0[k + 1..];
    assert es[..node] + es[node + 1..] == front + es0[k + 1..];
    RecountedAround(pubs0, doomed, es, node, en.refs);
    assert es[node] in es;
    RecountedHas(pubs0, doomed, es, es[node]);
    forall e | e in es[node := en] ensures e.publisher in pubs0 {
      var i :| 0 <= i < |es| && es[node := en][i] == e;
      assert es[i] in es;
    }
  }

  lemma RecountedHas(pubs: map<int, Publisher>, doomed: set<int>, es: seq<Entry>, e: Entry)
    requires e in es && e.publisher in pubs
    ensures e.publisher in Recounted(pubs, doomed, es)
    ensures Recounted(pubs, doomed, es)[e.publisher].pid == pubs[e.publisher].pid
  {
    CountPositive(es, e.publisher);
  }

  lemma SweepEnds(procs: map<int, Process>, es0: seq<Entry>, s: int, doomed: set<int>,
                  pubs0: map<int, Publisher>, k: nat, node: nat, es: seq<Entry>, pubs: map<int, Publisher>)
    requires SweepAt(procs, es0, s, doomed, pubs0, k, node, es, pubs) && node >= |es|
    ensures es == Swept(es0, {s}, doomed) && SweepReady(procs, es, pubs, pubs0, doomed)
  {
    hide Swept, SweepReady;
    assert k == |es0| && es0[..k] == es0;
  }

  /** A consistent store without stale dead publishers is ready. */
  lemma ReadyToSweep(procs: map<int, Process>, t: Topic, doomed: set<int>)
    requires Consistent(t) && doomed == DeadPublishers(procs, t)
    requires forall p :: p in doomed ==> t.pubs[p].entriesNum > 0
    ensures SweepReady(procs, t.entries, t.pubs, t.pubs, doomed)
  {
    hide Count;
    assert t.pubs.Keys == Recounted(t.pubs, doomed, t.entries).Keys;
  }

  lemma DeadOwnEntries(procs: map<int, Process>, t: Topic)
    requires NoStaleDead(procs, t)
    ensures forall p :: p in DeadPublishers(procs, t) ==> t.pubs[p].entriesNum > 0
  {
  }

  lemma SweepDone(procs: map<int, Process>, es: seq<Entry>, pubs: map<int, Publisher>,
                  pubs0: map<int, Publisher>, doomed: set<int>)
    requires SweepReady(procs, es, pubs, pubs0, doomed)
    ensures pubs == Recounted(pubs0, doomed, es)
  {
  }

  // ---------- Departures: a publisher's walk ----------

  ghost predicate PurgeAt(t: Topic, p: int, k: nat, node: nat, es: seq<Entry>, pubs: map<int, Publisher>) {
    && k <= |t.entries| && p in t.pubs
    && node == |Swept(t.entries[..k], {}, {p})|
    && es == Swept(t.entries[..k], {}, {p}) + t.entries[k..]
    && pubs == t.pubs[p := t.pubs[p].(entriesNum := Count(es, p))]
  }

  lemma PurgeStarts(t: Topic, p: int)
    requires Consistent(t) && p in t.pubs
    ensures PurgeAt(t, p, 0, 0, t.entries, t.pubs)
  {
    hide Swept, Count;
    SweptNil(t.entries[..0], {}, {p});
  }

  lemma PurgeStep(t: Topic, p: int, k: nat, node: nat, es: seq<Entry>, pubs: map<int, Publisher>)
    requires PurgeAt(t, p, k, node, es, pubs) && node < |es|
    ensures k < |t.entries| && p in pubs
    ensures if es[node].publisher != p || es[node].refs != {}
      then PurgeAt(t, p, k + 1, node + 1, es, pubs)
      else
        && pubs[p].entriesNum > 0
        && PurgeAt(t, p, k + 1, node, es[..node] + es[node + 1..],
                   pubs[p := pubs[p].(entriesNum := pubs[p].entriesNum - 1)])
  {
    hide Swept, Count;
    var front, rest := Swept(t.entries[..k], {}, {p}), t.entries[k..];
    assert k < |t.entries| && es[node] == t.entries[k];
    SweptStep(t.entries, k, {}, {p});
    assert es[node].refs - {} == es[node].refs;
    assert rest == [t.entries[k]] + t.entries[k + 1..];
    assert es == (front + [es[node]]) + t.entries[k + 1..];
    assert es[..node] + es[node + 1..] == front + t.entries[k + 1..];
    CountAround(es, node, es[node].refs, p);
  }

  lemma PurgeEnds(t: Topic, p: int, k: nat, node: nat, es: seq<Entry>, pubs: map<int, Publisher>)
    requires Consistent(t) && PurgeAt(t, p, k, node, es, pubs) && node >= |es|
    ensures p in pubs && es == Swept(t.entries, {}, {p}) && t.subs - {} == t.subs
    ensures Recounted(t.pubs, {p}, es) == if pubs[p].entriesNum == 0 then pubs - {p} else pubs
    ensures pubs.Keys == t.pubs.Keys
  {
    hide Swept, Count, Consistent;
    assert k == |t.entries| && t.entries[..k] == t.entries;
    assert es == Swept(t.entries, {}, {p});
    forall q | q in t.pubs && q != p ensures Count(es, q) == t.pubs[q].entriesNum {
      SweepKeepsOthers(t, {}, {p}, q);
    }
  }

  // ---------- Departures: several walks make one sweep ----------

  lemma SweepNothing(t: Topic)
    requires Consistent(t)
    ensures Sweep(t, {}, {}) == t
  {
    SweepOfSettled(t, {});
  }

  lemma SweepBoth(t: Topic, d1: set<int>, d2: set<int>)
    ensures Sweep(Sweep(t, {}, d1), {}, d2) == Sweep(t, {}, d1 + d2)
  {
    hide Swept, Count;
    var es1 := Swept(t.entries, {}, d1);
    SweptBoth(t.entries, d1, d2);
    forall p ensures p !in d2 ==> Count(Swept(es1, {}, d2), p) == Count(es1, p)
             ensures Count(es1, p) == 0 ==> Count(Swept(es1, {}, d2), p) == 0
    {
      SweptCount(es1, {}, d2, p);
    }
    assert (t.subs - {}) - {} == t.subs - {};
  }

  lemma SweptCount(es: seq<Entry>, gone: set<int>, doomed: set<int>, p: int)
    ensures p !in doomed ==> Count(Swept(es, gone, doomed), p) == Count(es, p)
    ensures Count(es, p) == 0 ==> Count(Swept(es, gone, doomed), p) == 0
  {
    hide Count, Swept;
    if p !in doomed {
      UndoomedCount(es, gone, doomed, p);
    } else {
      CountPositive(es, p);
      CountPositive(Swept(es, gone, doomed), p);
      forall e | e in Swept(es, gone, doomed) && e.publisher == p ensures Count(es, p) > 0 {
        SweptMember(es, gone, doomed, e);
        var i :| 0 <= i < |es| && e == es[i].(refs := es[i].refs - gone);
        assert es[i] in es;
      }
    }
  }

  lemma UndoomedCount(es: seq<Entry>, gone: set<int>, doomed: set<int>, p: int)
    requires p !in doomed
    ensures Count(Swept(es, gone, doomed), p) == Count(es, p)
  {
    hide Count, Filter;
    SurvivorsCount(Cleared(es, gone), doomed, p);
    CountSamePublishers(es, Cleared(es, gone), p);
  }

  lemma SweepSpares(t: Topic, p: int, others: set<int>)
    requires Consistent(t) && p !in others && others <= t.pubs.Keys
    ensures others <= RemovePublisher(t, p).pubs.Keys
  {
    hide Consistent;
    forall q | q in others ensures q in RemovePublisher(t, p).pubs {
      SweepKeepsOthers(t, {}, {p}, q);
    }
  }

  lemma FewerPublishers(t: Topic, p: int)
    ensures RemovePublisher(t, p).pubs.Keys <= t.pubs.Keys
  {
  }

  lemma ReadyAfterPublisherExit(before: map<int, Process>, procs: map<int, Process>, t: Topic, pid: int)
    requires Consistent(t) && NoStaleDead(before, t) && OnlyDied(before, procs, pid)
    ensures var u := Sweep(t, {}, PublishersOf(t, pid));
      SweepReady(procs, u.entries, u.pubs, u.pubs, DeadPublishers(procs, u))
  {
    hide Consistent, SweepReady, Swept, Count;
    var own := PublishersOf(t, pid);
    var u := Sweep(t, {}, own);
    SweepKeeps(t, {}, own);
    SweepLeavesReferenced(t, {}, own);
    forall p | p in u.pubs && Dead(procs, u.pubs[p].pid) ensures u.pubs[p].entriesNum > 0 {
      if p !in own {
        SweepKeepsOthers(t, {}, own, p);
      }
    }
    ReadyToSweep(procs, u, DeadPublishers(procs, u));
  }

  lemma SweptDoomedAgree(es: seq<Entry>, gone: set<int>, d1: set<int>, d2: set<int>)
    requires forall e :: e in es ==> (e.publisher in d1 <==> e.publisher in d2)
    ensures Swept(es, gone, d1) == Swept(es, gone, d2)
  {
    hide Filter;
    var cleared := Cleared(es, gone);
    forall i | 0 <= i < |cleared| ensures Survives(d1)(cleared[i]) == Survives(d2)(cleared[i]) {
      assert es[i] in es;
    }
    FilterAgree(cleared, Survives(d1), Survives(d2));
  }

  /** A first sweep of some of the doomed publishers does not change the outcome of the full one. */
  lemma {:induction false} SweptMore(es: seq<Entry>, own: set<int>, gone: set<int>, doomed: set<int>)
    requires own <= doomed
    ensures Swept(Swept(es, {}, own), gone, doomed) == Swept(es, gone, doomed)
  {
    if es == [] {
      SweptNil(es, {}, own);
      SweptNil(es, gone, doomed);
    } else {
      hide Swept;
      var n := |es| - 1;
      SweptMore(es[..n], own, gone, doomed);
      assert es[..n + 1] == es;
      SweptStep(es, n, {}, own);
      SweptStep(es, n, gone, doomed);
      assert es[n].refs - {} == es[n].refs;
      var front := Swept(es[..n], {}, own);
      if !(es[n].refs == {} && es[n].publisher in own) {
        assert (front + [es[n]])[..|front|] == front && (front + [es[n]])[..|front| + 1] == front + [es[n]];
        SweptStep(front + [es[n]], |front|, gone, doomed);
      }
    }
  }

  lemma ExitInTwoStages(procs: map<int, Process>, t: Topic, pid: int)
    requires Consistent(t) && Dead(procs, pid)
    ensures var u := Sweep(t, {}, PublishersOf(t, pid)); var gone := SubscribersOf(u, pid);
      Exit(procs, t, pid) == if gone == {} then u else Sweep(u, gone, DeadPublishers(procs, u))
  {
    hide Consistent, Swept, Count;
    var own, doomed := PublishersOf(t, pid), DeadPublishers(procs, t);
    var u := Sweep(t, {}, own);
    var gone := SubscribersOf(u, pid);
    assert t.subs - {} == t.subs;
    assert gone == SubscribersOf(t, pid);
    if gone != {} {
      SweepKeeps(t, {}, own);
      StoredPublishers(u);
      SweptDoomedAgree(u.entries, gone, DeadPublishers(procs, u), doomed);
      SweptMore(t.entries, own, gone, doomed);
      RecountedInTwoStages(procs, t.pubs, own, doomed, u.entries, gone);
    }
  }

  lemma StoredPublishers(t: Topic)
    requires Consistent(t)
    ensures forall e :: e in t.entries ==> e.publisher in t.pubs
  {
  }

  lemma RecountedInTwoStages(procs: map<int, Process>, pubs: map<int, Publisher>, own: set<int>, doomed: set<int>,
                             es1: seq<Entry>, gone: set<int>)
    requires own <= doomed && doomed == (set p | p in pubs && Dead(procs, pubs[p].pid))
    ensures var mid := Recounted(pubs, own, es1); var es2 := Swept(es1, gone, doomed);
      Recounted(mid, (set p | p in mid && Dead(procs, mid[p].pid)), es2) == Recounted(pubs, doomed, es2)
  {
    hide Swept, Count;
    var es2 := Swept(es1, gone, doomed);
    forall p ensures Count(es1, p) == 0 ==> Count(es2, p) == 0 {
      SweptCount(es1, gone, doomed, p);
    }
  }
}
