// How each step of the publish, receive and take walks over the entry tree advances what they compute.

module WalkLemmas {
  import opened Base
  import opened Seqs
  import opened TopicModel
  import opened StoreInvariant

  // ---------- Receive and take: the backward walk ----------

  /** Where the backward walk may stop: all deliverable entries seen, or `depth` of them. */
  lemma NewestFrom(w: World, t: Topic, q: Subscriber, floor: int, node: nat)
    requires node <= |t.entries|
    requires var tail := Filter(t.entries[node..], Wanted(w, t, q, floor));
      || |tail| == q.depth
      || (|tail| < q.depth && forall e :: e in t.entries[..node] ==> !Wanted(w, t, q, floor)(e))
    ensures Newest(w, t, q, floor) == Filter(t.entries[node..], Wanted(w, t, q, floor))
  {
    hide Filter, Wanted;
    var f := Wanted(w, t, q, floor);
    var front, tail := t.entries[..node], t.entries[node..];
    assert t.entries == front + tail;
    FilterConcat(front, tail, f);
    if |Filter(tail, f)| < q.depth {
      FilterNone(front, f);
    }
  }

  /** One step of the backward walk. */
  lemma FilterCons<T>(s: seq<T>, i: nat, f: T -> bool)
    requires i < |s|
    ensures Filter(s[i..], f) == if f(s[i]) then [s[i]] + Filter(s[i + 1..], f) else Filter(s[i + 1..], f)
  {
    assert s[i..] == [s[i]] + s[i + 1..];
    FilterConcat([s[i]], s[i + 1..], f);
    FilterAppend([], s[i], f);
  }

  lemma BeforeIsOlder(es: seq<Entry>, i: nat, floor: int)
    requires Ascending(es) && i <= |es| && (i == 0 || es[i - 1].id < floor)
    ensures forall e :: e in es[..i] ==> e.id < floor
  {
  }

  // ---------- Receive: the forward walk ----------

  lemma MarkNone(es: seq<Entry>, s: int)
    ensures Marked(es, [], s) == es
  {
  }

  lemma MarkOne(es: seq<Entry>, batch: seq<Entry>, k: nat, s: int)
    requires Ascending(es) && k < |es|
    requires forall e :: e in batch ==> e.id < es[k].id
    ensures Marked(es, batch, s)[k] == es[k]
    ensures Marked(es, batch, s)[k := es[k].(refs := es[k].refs + {s})] == Marked(es, batch + [es[k]], s)
  {
    var after := Marked(es, batch, s)[k := es[k].(refs := es[k].refs + {s})];
    forall i | 0 <= i < |es| ensures after[i] == Marked(es, batch + [es[k]], s)[i] {
      assert es[i] in batch + [es[k]] <==> es[i] in batch || i == k;
    }
  }

  lemma FilterBelow(es: seq<Entry>, from: nat, k: nat, f: Entry -> bool)
    requires Ascending(es) && from <= k < |es|
    ensures forall e :: e in Filter(es[from..k], f) ==> e.id < es[k].id && e in es && f(e)
  {
    FilterMembers(es[from..k], f);
  }

  // ---------- Publish: reclaiming beyond the depth ----------

  /** Removing the one occurrence of an entry is one more victim filtered out. */
  lemma RemoveVictim(es: seq<Entry>, victims: seq<Entry>, i: nat)
    requires Ascending(es) && i < |Filter(es, NotAmong(victims))|
    ensures var kept := Filter(es, NotAmong(victims));
      kept[..i] + kept[i + 1..] == Filter(es, NotAmong(victims + [kept[i]]))
  {
    hide Filter;
    var kept := Filter(es, NotAmong(victims));
    FilterAscending(es, NotAmong(victims));
    FilterTwice(es, victims, kept[i]);
    var left, right := kept[..i], kept[i + 1..];
    assert kept == left + ([kept[i]] + right);
    FilterConcat(left, [kept[i]] + right, NotAmong([kept[i]]));
    FilterConcat([kept[i]], right, NotAmong([kept[i]]));
    FilterNone([kept[i]], NotAmong([kept[i]]));
    FilterAll(left, NotAmong([kept[i]]));
    FilterAll(right, NotAmong([kept[i]]));
  }

  lemma {:induction false} FilterTwice(es: seq<Entry>, victims: seq<Entry>, x: Entry)
    ensures Filter(es, NotAmong(victims + [x])) == Filter(Filter(es, NotAmong(victims)), NotAmong([x]))
  {
    if es == [] {
      assert Filter(es, NotAmong(victims + [x])) == [];
      assert Filter(Filter(es, NotAmong(victims)), NotAmong([x])) == [];
    } else {
      hide Filter;
      var init, last := es[..|es| - 1], es[|es| - 1];
      assert es == init + [last];
      FilterTwice(init, victims, x);
      FilterAppend(init, last, NotAmong(victims + [x]));
      FilterAppend(init, last, NotAmong(victims));
      FilterAppend(Filter(init, NotAmong(victims)), last, NotAmong([x]));
    }
  }

  /** The unreferenced ones among the publisher's first entries, as far as the walk has come. */
  function FreeSoFar(es: seq<Entry>, k: nat, p: int): seq<Entry>
    requires k <= |es|
  {
    Filter(Filter(es[..k], OwnedBy(p)), Unreferenced())
  }

  lemma FreeSoFarStep(es: seq<Entry>, k: nat, p: int)
    requires k < |es|
    ensures FreeSoFar(es, k + 1, p)
         == if es[k].publisher == p && es[k].refs == {} then FreeSoFar(es, k, p) + [es[k]] else FreeSoFar(es, k, p)
    ensures Count(es[..k + 1], p) == Count(es[..k], p) + if es[k].publisher == p then 1 else 0
  {
    hide Filter;
    FilterSnoc(es, k, OwnedBy(p));
    if es[k].publisher == p {
      FilterAppend(Filter(es[..k], OwnedBy(p)), es[k], Unreferenced());
    }
  }

  /** When the walk stops after `k` entries it has collected exactly what is reclaimable. */
  lemma WalkCollects(t: Topic, p: int, k: nat)
    requires p in t.pubs && k <= |t.entries|
    requires var seen, excess := Count(t.entries[..k], p), Count(t.entries, p) - Max(1, t.pubs[p].depth);
      && seen <= excess
      && (seen == excess || |FreeSoFar(t.entries, k, p)| == MAX_RELEASE_NUM)
      && |FreeSoFar(t.entries, k, p)| <= MAX_RELEASE_NUM
    ensures FreeSoFar(t.entries, k, p) == Reclaimable(t, p)
  {
    hide Filter;
    var own := Filter(t.entries, OwnedBy(p));
    var seen := Filter(t.entries[..k], OwnedBy(p));
    FilterPrefix(t.entries, k, OwnedBy(p));
    var excess := Excess(t, p);
    assert seen == excess[..|seen|];
    FilterPrefix(excess, |seen|, Unreferenced());
    var free := Filter(excess, Unreferenced());
    var soFar := Filter(seen, Unreferenced());
    if |seen| == |excess| {
      assert seen == excess;
      assert free[..|free|] == free;
    } else {
      assert soFar == free[..MAX_RELEASE_NUM];
    }
  }

  // ---------- Reclaiming beyond the depth ----------

  /** The walk stands on entry `k` of the original tree; `es` is what is left, `search` entries are still to visit. */
  ghost predicate WalkAt(t: Topic, p: int, k: nat, node: nat, es: seq<Entry>, victims: seq<Entry>, search: int) {
    && p in t.pubs
    && k < |t.entries| && t.entries[|t.entries| - 1].publisher == p
    && victims == FreeSoFar(t.entries, k, p)
    && es == Filter(t.entries, NotAmong(victims))
    && node + |victims| == k
    && node < |es| && es[node..] == t.entries[k..]
    && |victims| <= Count(t.entries[..k], p)
    && search + Count(t.entries[..k], p) == t.pubs[p].entriesNum - t.pubs[p].depth
    && t.pubs[p].depth < t.pubs[p].entriesNum == Count(t.entries, p)
  }

  lemma WalkStarts(t: Topic, p: int, search: nat)
    requires Consistent(t) && p in t.pubs && t.entries != [] && t.entries[|t.entries| - 1].publisher == p
    requires search > 0 && search == t.pubs[p].entriesNum - t.pubs[p].depth
    ensures WalkAt(t, p, 0, 0, t.entries, [], search)
  {
    FilterAll(t.entries, NotAmong([]));
  }

  lemma WalkStep(t: Topic, p: int, k: nat, node: nat, es: seq<Entry>, victims: seq<Entry>, search: int)
    requires Consistent(t) && WalkAt(t, p, k, node, es, victims, search)
    requires search > 0 && |victims| < MAX_RELEASE_NUM
    ensures node < |es| && k < |t.entries| && |victims| < t.pubs[p].entriesNum
    ensures node + 1 == |es| ==>
      victims == Reclaimable(t, p) && es == Filter(t.entries, NotAmong(victims)) && WalkRunsOff(t, p)
    ensures node + 1 < |es| ==>
      if es[node].publisher != p then WalkAt(t, p, k + 1, node + 1, es, victims, search)
      else if es[node].refs != {} then WalkAt(t, p, k + 1, node + 1, es, victims, search - 1)
      else WalkAt(t, p, k + 1, node, es[..node] + es[node + 1..], victims + [es[node]], search - 1)
  {
    hide Consistent, Filter, Reclaimable, FreeSoFar;
    StoreAscending(t);
    assert es[node] == es[node..][0] == t.entries[k..][0];
    assert |es[node..]| == |t.entries[k..]|;
    FreeSoFarStep(t.entries, k, p);
    SeenBeforeLast(t, p, k);
    if node + 1 == |es| {
      WalkCollects(t, p, k);
    } else {
      assert es[node + 1..] == es[node..][1..] && t.entries[k + 1..] == t.entries[k..][1..];
      RemoveVictim(t.entries, victims, node);
      var fewer := es[..node] + es[node + 1..];
      assert fewer[node..] == es[node + 1..];
    }
  }

  /** The newest entry is the publisher's own, so the walk has never seen all of them. */
  lemma SeenBeforeLast(t: Topic, p: int, k: nat)
    requires k < |t.entries| && t.entries[|t.entries| - 1].publisher == p
    ensures Count(t.entries[..k], p) < Count(t.entries, p)
    ensures k + 1 == |t.entries| ==> Count(t.entries[..k], p) + 1 == Count(t.entries, p)
  {
    hide Filter;
    var last := |t.entries| - 1;
    assert t.entries[..last + 1] == t.entries;
    FilterSnoc(t.entries, last, OwnedBy(p));
    assert t.entries[..k] == t.entries[..last][..k];
    FilterPrefix(t.entries[..last], k, OwnedBy(p));
  }

  lemma WalkStops(t: Topic, p: int, k: nat, node: nat, es: seq<Entry>, victims: seq<Entry>, search: int)
    requires Consistent(t) && WalkAt(t, p, k, node, es, victims, search)
    requires |victims| <= MAX_RELEASE_NUM && search >= 0
    requires search == 0 || |victims| == MAX_RELEASE_NUM
    ensures victims == Reclaimable(t, p) && es == Filter(t.entries, NotAmong(victims)) && !WalkRunsOff(t, p)
  {
    hide Consistent, Filter, Reclaimable, FreeSoFar;
    SeenBeforeLast(t, p, k);
    WalkCollects(t, p, k);
  }

  lemma NothingInExcess(t: Topic, p: int)
    requires Consistent(t) && p in t.pubs && t.pubs[p].entriesNum <= t.pubs[p].depth
    requires exists e :: e in t.entries && e.publisher == p
    ensures Reclaimable(t, p) == [] && !WalkRunsOff(t, p) && Without(t, p, []) == t
  {
    hide Filter, Consistent;
    assert t.pubs[p].entriesNum == Count(t.entries, p) by { StoreCounts(t, p); }
    CountPositive(t.entries, p);
    FilterLength(Excess(t, p), Unreferenced());
    FilterAll(t.entries, NotAmong([]));
  }

  lemma StoreCounts(t: Topic, p: int)
    requires Consistent(t) && p in t.pubs
    ensures t.pubs[p].entriesNum == Count(t.entries, p)
  {
  }

  // ---------- The backward walk ----------

  /** Entries from `back` on are visited; the `num` deliverable ones among them start at `node`. */
  ghost predicate BackAt(w: World, t: Topic, q: Subscriber, floor: int, back: nat, node: nat, num: nat) {
    && back <= node <= |t.entries|
    && Filter(t.entries[back..], Wanted(w, t, q, floor)) == Filter(t.entries[node..], Wanted(w, t, q, floor))
    && |Filter(t.entries[node..], Wanted(w, t, q, floor))| == num <= q.depth
    && (num == 0 <==> node == |t.entries|)
    && (num > 0 ==> Wanted(w, t, q, floor)(t.entries[node]))
  }

  /** The deliverable entries from `node` on are the newest ones within the depth. */
  ghost predicate BackEnd(w: World, t: Topic, q: Subscriber, floor: int, node: nat, num: nat) {
    && node <= |t.entries|
    && Filter(t.entries[node..], Wanted(w, t, q, floor)) == Newest(w, t, q, floor)
    && |Newest(w, t, q, floor)| == num
    && (num == 0 <==> node == |t.entries|)
    && (num > 0 ==> Wanted(w, t, q, floor)(t.entries[node]))
  }

  lemma BackStarts(w: World, t: Topic, q: Subscriber, floor: int)
    ensures BackAt(w, t, q, floor, |t.entries|, |t.entries|, 0)
  {
  }

  lemma BackStep(w: World, t: Topic, q: Subscriber, floor: int, back: nat, node: nat, num: nat)
    requires Consistent(t) && BackAt(w, t, q, floor, back, node, num) && 0 < back && num < q.depth
    ensures back <= |t.entries| && t.entries[back - 1].publisher in t.pubs
    ensures var e := t.entries[back - 1];
      if e.id < floor then BackEnd(w, t, q, floor, node, num)
      else if Deliverable(w, t, q, e) then BackAt(w, t, q, floor, back - 1, back - 1, num + 1)
      else BackAt(w, t, q, floor, back - 1, node, num)
  {
    hide Filter, CountsOk, RefsOk, IdsOk, Newest, Deliverable;
    var e := t.entries[back - 1];
    assert e in t.entries;
    FilterCons(t.entries, back - 1, Wanted(w, t, q, floor));
    if e.id < floor {
      BeforeIsOlder(t.entries, back, floor);
      FromBackToNode(w, t, q, floor, back, node);
    }
  }

  lemma FromBackToNode(w: World, t: Topic, q: Subscriber, floor: int, back: nat, node: nat)
    requires back <= node <= |t.entries|
    requires Filter(t.entries[back..], Wanted(w, t, q, floor)) == Filter(t.entries[node..], Wanted(w, t, q, floor))
    requires |Filter(t.entries[node..], Wanted(w, t, q, floor))| <= q.depth
    requires forall e :: e in t.entries[..back] ==> !Wanted(w, t, q, floor)(e)
    ensures Newest(w, t, q, floor) == Filter(t.entries[node..], Wanted(w, t, q, floor))
  {
    NewestFrom(w, t, q, floor, back);
  }

  lemma BackStops(w: World, t: Topic, q: Subscriber, floor: int, back: nat, node: nat, num: nat)
    requires BackEnd(w, t, q, floor, node, num) || BackAt(w, t, q, floor, back, node, num)
    requires BackEnd(w, t, q, floor, node, num) || back == 0 || num >= q.depth
    ensures BackEnd(w, t, q, floor, node, num)
  {
    hide Filter, Newest;
    if !BackEnd(w, t, q, floor, node, num) {
      if num == q.depth {
        NewestFrom(w, t, q, floor, node);
      } else {
        FromBackToNode(w, t, q, floor, back, node);
      }
    }
  }

  // ---------- The forward walk ----------

  /** Entries of the window before `k` are `handed` out; `es` is the tree with their bits set. */
  ghost predicate ForwardAt(w: World, t: Topic, s: int, node: nat, num: nat, k: nat, es: seq<Entry>,
      handed: seq<Entry>) {
    && s in t.subs
    && BackEnd(w, t, t.subs[s], t.subs[s].latest + 1, node, num)
    && node <= k <= |t.entries|
    && handed == Filter(t.entries[node..k], Wanted(w, t, t.subs[s], t.subs[s].latest + 1))
    && es == Marked(t.entries, handed, s)
  }

  lemma NothingToReceive(w: World, t: Topic, q: Subscriber)
    requires t.entries == [] || q.depth == 0
    ensures Window(w, t, q) == [] == Batch(w, t, q)
    ensures IdsOf([]) == [] == AddrsOf([])
  {
    hide Filter, Wanted;
    FilterLength(t.entries, Wanted(w, t, q, q.latest + 1));
  }

  lemma ForwardStarts(w: World, t: Topic, s: int, node: nat, num: nat)
    requires s in t.subs && BackEnd(w, t, t.subs[s], t.subs[s].latest + 1, node, num)
    ensures ForwardAt(w, t, s, node, num, node, t.entries, []) && node <= |t.entries|
  {
    hide BackEnd;
    assert node <= |t.entries| by { BackEndNode(w, t, t.subs[s], t.subs[s].latest + 1, node, num); }
    MarkNone(t.entries, s);
  }

  lemma BackEndNode(w: World, t: Topic, q: Subscriber, floor: int, node: nat, num: nat)
    requires BackEnd(w, t, q, floor, node, num)
    ensures node <= |t.entries|
  {
  }

  lemma ForwardStep(w: World, t: Topic, s: int, node: nat, num: nat, k: nat, es: seq<Entry>, handed: seq<Entry>)
    requires Consistent(t) && ForwardAt(w, t, s, node, num, k, es, handed) && k < |es|
    ensures |es| == |t.entries| && k < |t.entries| && es[k] == t.entries[k] && es[k].publisher in t.pubs
    ensures Deliverable(w, t, t.subs[s], es[k]) ==>
      && s !in es[k].refs
      && ForwardAt(w, t, s, node, num, k + 1, es[k := es[k].(refs := es[k].refs + {s})], handed + [t.entries[k]])
    ensures !Deliverable(w, t, t.subs[s], es[k]) ==> ForwardAt(w, t, s, node, num, k + 1, es, handed)
  {
    hide Filter, CountsOk, IdsOk, Newest, Deliverable;
    var q, e := t.subs[s], t.entries[k];
    var f := Wanted(w, t, q, q.latest + 1);
    assert e in t.entries && HoldersOk(t.subs, e);
    FilterBelow(t.entries, node, k, f);
    MarkOne(t.entries, handed, k, s);
    assert t.entries[node..k + 1] == t.entries[node..k] + [e];
    FilterAppend(t.entries[node..k], e, f);
    assert q.latest < t.entries[node].id <= e.id;
  }

  lemma ForwardStops(w: World, t: Topic, s: int, node: nat, num: nat, k: nat, es: seq<Entry>, handed: seq<Entry>)
    requires ForwardAt(w, t, s, node, num, k, es, handed) && |handed| <= MAX_RECEIVE_NUM
    requires k == |t.entries| || |handed| == MAX_RECEIVE_NUM
    ensures handed == Batch(w, t, t.subs[s]) && es == Marked(t.entries, handed, s)
    ensures num == |Window(w, t, t.subs[s])| && (k == |t.entries| ==> |handed| == num)
  {
    hide Filter, Newest, Deliverable;
    var f := Wanted(w, t, t.subs[s], t.subs[s].latest + 1);
    var tail := t.entries[node..];
    assert t.entries[node..k] == tail[..k - node];
    FilterPrefix(tail, k - node, f);
    if k == |t.entries| {
      assert t.entries[node..k] == tail;
    }
  }

  lemma TakeOldest(w: World, t: Topic, s: int, allowSame: bool, node: nat, num: nat)
    requires Consistent(t) && s in t.subs
    requires BackEnd(w, t, t.subs[s], TakeFloor(t.subs[s], allowSame), node, num)
    ensures node <= |t.entries|
    ensures if node == |t.entries| then TakeCandidate(w, t, t.subs[s], allowSame) == []
      else
        && TakeCandidate(w, t, t.subs[s], allowSame) == [t.entries[node]]
        && (s in t.entries[node].refs ==> allowSame)
        && Marked(t.entries, [t.entries[node]], s)
             == t.entries[node := t.entries[node].(refs := t.entries[node].refs + {s})]
  {
    hide Filter, CountsOk, IdsOk, Newest, Deliverable;
    if node < |t.entries| {
      var f := Wanted(w, t, t.subs[s], TakeFloor(t.subs[s], allowSame));
      FilterCons(t.entries, node, f);
      assert t.entries[node] in t.entries && HoldersOk(t.subs, t.entries[node]);
      MarkNone(t.entries, s);
      MarkOne(t.entries, [], node, s);
    }
  }
}
