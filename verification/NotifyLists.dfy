// The per-publisher cache of eventfd contexts, and the filter over the subscriber table it replaces.

module NotifyLists {
  import opened Base
  import opened Seqs
  import opened Sets
  import opened TopicModel

  /** `ctxs` is the filled prefix of the allocated array, `capacity` the array's length. */
  datatype NotifyList = NotifyList(ctxs: seq<int>, capacity: nat)

  /** What the filter reads: the rules, the store's own rule, and the subscriber table. */
  datatype Audience = Audience(rules: map<int, Rule>, rule: Option<int>, subs: map<int, Subscriber>)

  function AudienceOf(rules: map<int, Rule>, t: Topic): Audience {
    Audience(rules, t.rule, t.subs)
  }

  /** Whether a publication of `p` must wake subscriber `s`. */
  predicate Notifiable(a: Audience, p: Publisher, s: int) {
    && s in a.subs
    && a.subs[s].ctx.Some?
    && Allows(a.rules, a.rule, p, a.subs[s])
    && !(a.subs[s].ignoreLocal && a.subs[s].pid == p.pid)
  }

  function Listeners(a: Audience, p: Publisher): set<int> {
    set s | s in a.subs && Notifiable(a, p, s)
  }

  /** `ctxs` holds one context for each of the distinct subscribers `ids`, who are exactly the notifiable ones. */
  ghost predicate Enumerates(a: Audience, p: Publisher, ids: seq<int>, ctxs: seq<int>) {
    && |ids| == |ctxs|
    && Distinct(ids)
    && (forall s :: s in ids <==> Notifiable(a, p, s))
    && (forall i :: 0 <= i < |ids| ==> Notifiable(a, p, ids[i]) && ctxs[i] == a.subs[ids[i]].ctx.value)
  }

  ghost predicate Lists(a: Audience, p: Publisher, ctxs: seq<int>) {
    exists ids :: Enumerates(a, p, ids, ctxs)
  }

  /** The subscribers that are not take subscribers. */
  function Wakeable(subs: map<int, Subscriber>): set<int> {
    set s | s in subs && subs[s].ctx.Some?
  }

  ghost predicate CapacityOk(t: Topic, notify: map<int, NotifyList>) {
    && notify.Keys == t.pubs.Keys
    && forall p :: p in notify ==> |Wakeable(t.subs)| <= notify[p].capacity <= MAX_SUBSCRIBER_NUM
  }

  ghost predicate NotifyOk(rules: map<int, Rule>, t: Topic, notify: map<int, NotifyList>) {
    && CapacityOk(t, notify)
    && forall p :: p in notify ==> Lists(AudienceOf(rules, t), t.pubs[p], notify[p].ctxs)
  }

  /** No array of a remaining publisher shrank. */
  ghost predicate CapacitiesKept(before: map<int, NotifyList>, after: map<int, NotifyList>) {
    forall p :: p in before && p in after ==> before[p].capacity <= after[p].capacity
  }

  /** The same publishers, with the same contexts listed in the same order. */
  ghost predicate ContentsKept(before: map<int, NotifyList>, after: map<int, NotifyList>) {
    after.Keys == before.Keys && forall p :: p in before ==> after[p].ctxs == before[p].ctxs
  }

  lemma CapacitiesKeptTwice(a: map<int, NotifyList>, b: map<int, NotifyList>, c: map<int, NotifyList>)
    requires CapacitiesKept(a, b) && CapacitiesKept(b, c) && a.Keys <= b.Keys
    ensures CapacitiesKept(a, c)
  {
  }

  /** Wherever a store and a publisher remain, the publisher's array did not shrink. */
  ghost predicate ArraysKept(before: map<int, map<int, NotifyList>>, after: map<int, map<int, NotifyList>>) {
    forall T :: T in before && T in after ==> CapacitiesKept(before[T], after[T])
  }

  /** Every store of before has the arrays it had. */
  ghost predicate ListsStay(before: map<int, map<int, NotifyList>>, after: map<int, map<int, NotifyList>>) {
    forall T :: T in before ==> T in after && after[T] == before[T]
  }

  /** No store and no publisher has come, and the arrays of those that remain did not shrink. */
  ghost predicate ArraysKeptOnLeave(before: map<int, map<int, NotifyList>>, after: map<int, map<int, NotifyList>>) {
    forall T :: T in after ==> T in before && after[T].Keys <= before[T].Keys && CapacitiesKept(before[T], after[T])
  }

  lemma LeavesCompose(a: map<int, map<int, NotifyList>>, b: map<int, map<int, NotifyList>>,
                      c: map<int, map<int, NotifyList>>)
    requires ArraysKeptOnLeave(a, b) && ArraysKeptOnLeave(b, c)
    ensures ArraysKeptOnLeave(a, c)
  {
    hide CapacitiesKept;
    forall T | T in c ensures T in a && c[T].Keys <= a[T].Keys && CapacitiesKept(a[T], c[T]) {
      CapacitiesKeptOnward(a[T], b[T], c[T]);
    }
  }

  lemma ListsStayAlone(a: map<int, map<int, NotifyList>>)
    ensures ListsStay(a, a)
  {
  }

  lemma StayingKeeps(a: map<int, map<int, NotifyList>>, b: map<int, map<int, NotifyList>>)
    requires ListsStay(a, b)
    ensures ArraysKept(a, b)
  {
  }

  lemma NobodyCame(a: map<int, map<int, NotifyList>>, T: int)
    ensures ArraysKeptOnLeave(a, a) && ArraysKeptOnLeave(a, a - {T})
  {
  }

  lemma OneStoreLeaves(a: map<int, map<int, NotifyList>>, T: int, after: map<int, NotifyList>)
    requires T in a && after.Keys <= a[T].Keys && CapacitiesKept(a[T], after)
    ensures ArraysKeptOnLeave(a, a[T := after])
  {
  }

  lemma OneStoreGrows(a: map<int, map<int, NotifyList>>, b: map<int, map<int, NotifyList>>, T: int,
                      after: map<int, NotifyList>)
    requires ListsStay(a, b) && T in b && CapacitiesKept(b[T], after)
    ensures ArraysKept(a, b[T := after])
  {
  }

  lemma NotifyKeptSelf(n: map<int, NotifyList>)
    ensures ContentsKept(n, n) && CapacitiesKept(n, n)
  {
  }

  // ---------- What the lists do not depend on ----------

  function FixedPart(q: Subscriber): Subscriber {
    q.(latest := 0, needMmap := false)
  }

  /** The same non-take subscribers, up to delivery progress. */
  ghost predicate SameListeners(a: map<int, Subscriber>, b: map<int, Subscriber>) {
    && Wakeable(a) == Wakeable(b)
    && (forall s :: s in Wakeable(a) ==> FixedPart(a[s]) == FixedPart(b[s]))
  }

  ghost predicate SamePublisher(p: Publisher, q: Publisher) {
    p.(entriesNum := 0) == q.(entriesNum := 0)
  }

  lemma NotifiableSame(a: Audience, b: Audience, p: Publisher, q: Publisher, s: int)
    requires a.rules == b.rules && a.rule == b.rule && SameListeners(a.subs, b.subs) && SamePublisher(p, q)
    ensures Notifiable(a, p, s) <==> Notifiable(b, q, s)
  {
    assert p.(entriesNum := 0) == q.(entriesNum := 0);
    if s in Wakeable(a.subs) {
      assert FixedPart(a.subs[s]) == FixedPart(b.subs[s]);
    } else {
      assert s !in Wakeable(b.subs);
    }
  }

  lemma ListsDependOnListeners(a: Audience, b: Audience, p: Publisher, q: Publisher, ctxs: seq<int>)
    requires a.rules == b.rules && a.rule == b.rule && SameListeners(a.subs, b.subs) && SamePublisher(p, q)
    requires Lists(a, p, ctxs)
    ensures Lists(b, q, ctxs)
  {
    hide Allows;
    var ids :| Enumerates(a, p, ids, ctxs);
    forall s ensures Notifiable(a, p, s) <==> Notifiable(b, q, s) {
      NotifiableSame(a, b, p, q, s);
    }
    forall i | 0 <= i < |ids| ensures b.subs[ids[i]].ctx == a.subs[ids[i]].ctx {
      assert ids[i] in Wakeable(a.subs);
      assert FixedPart(a.subs[ids[i]]) == FixedPart(b.subs[ids[i]]);
    }
    assert Enumerates(b, q, ids, ctxs);
  }

  /** The lists survive whatever leaves the listeners and the remaining publishers as they are. */
  lemma NotifyDependsOnListeners(rules: map<int, Rule>, t: Topic, u: Topic,
                                 notify: map<int, NotifyList>, kept: map<int, NotifyList>)
    requires NotifyOk(rules, t, notify) && u.rule == t.rule && SameListeners(t.subs, u.subs)
    requires u.pubs.Keys <= t.pubs.Keys && forall p :: p in u.pubs ==> SamePublisher(t.pubs[p], u.pubs[p])
    requires kept.Keys == u.pubs.Keys && forall p :: p in kept ==> kept[p] == notify[p]
    ensures NotifyOk(rules, u, kept)
  {
    hide Lists, SamePublisher;
    forall p | p in kept ensures Lists(AudienceOf(rules, u), u.pubs[p], kept[p].ctxs) {
      ListsDependOnListeners(AudienceOf(rules, t), AudienceOf(rules, u), t.pubs[p], u.pubs[p], kept[p].ctxs);
    }
  }

  /** Growing arrays without touching their contents keeps every list right. */
  lemma GrownNotifyOk(rules: map<int, Rule>, t: Topic, notify: map<int, NotifyList>, grown: map<int, NotifyList>)
    requires NotifyOk(rules, t, notify) && ContentsKept(notify, grown) && CapacitiesKept(notify, grown)
    requires forall p :: p in grown ==> grown[p].capacity <= MAX_SUBSCRIBER_NUM
    ensures NotifyOk(rules, t, grown)
  {
    hide Lists;
  }

  /** While a notifiable subscriber is still missing from a partial list, the list is shorter than the array. */
  lemma RoomForOneMore(subs: map<int, Subscriber>, ids: seq<int>, s: int)
    requires Distinct(ids) && s !in ids && s in Wakeable(subs)
    requires forall i :: 0 <= i < |ids| ==> ids[i] in Wakeable(subs)
    ensures |ids| < |Wakeable(subs)|
  {
    DistinctCardinality(ids);
    var all := (set x | x in ids) + {s};
    assert |all| == |ids| + 1;
    SubsetCardinality(all, Wakeable(subs));
  }

  lemma WakeableFits(t: Topic)
    requires Consistent(t)
    ensures |Wakeable(t.subs)| <= MAX_SUBSCRIBER_NUM
    ensures |t.subs| != MAX_SUBSCRIBER_NUM ==> |Wakeable(t.subs)| + 1 <= MAX_SUBSCRIBER_NUM
    ensures t.nextId !in t.subs && t.nextId !in t.pubs
  {
    hide EntriesOk, CountsOk, RefsOk;
    SubsetCardinality(Wakeable(t.subs), t.subs.Keys);
    assert |t.subs| == |t.subs.Keys|;
  }

  lemma WakeableAfterJoin(before: map<int, Subscriber>, after: map<int, Subscriber>, id: int)
    requires id in after && after == before[id := after[id]]
    ensures |Wakeable(after)| <= |Wakeable(before)| + 1
  {
    SubsetCardinality(Wakeable(after), Wakeable(before) + {id});
  }

  // ---------- Joining and leaving ----------

  lemma PublisherJoins(rules: map<int, Rule>, t: Topic, u: Topic, id: int,
                       before: map<int, NotifyList>, after: map<int, NotifyList>)
    requires NotifyOk(rules, t, before) && id !in t.pubs && id in u.pubs && id in after
    requires SameListeners(t.subs, u.subs) && u.rule == t.rule && u.pubs == t.pubs[id := u.pubs[id]]
    requires after == before[id := after[id]] && Lists(AudienceOf(rules, t), u.pubs[id], after[id].ctxs)
    requires |Wakeable(t.subs)| <= after[id].capacity <= MAX_SUBSCRIBER_NUM
    ensures NotifyOk(rules, u, after) && CapacitiesKept(before, after)
  {
    var v := t.(pubs := u.pubs);
    assert NotifyOk(rules, v, after) by { hide Lists, Wakeable; }
    NotifyDependsOnListeners(rules, v, u, after, after);
  }

  lemma UnusedIdSilent(rules: map<int, Rule>, t: Topic, u: Topic, notify: map<int, NotifyList>)
    requires NotifyOk(rules, t, notify) && u == t.(nextId := u.nextId)
    ensures NotifyOk(rules, u, notify)
  {
    hide Lists, Wakeable;
  }

  lemma MmapFlagSilent(subs: map<int, Subscriber>)
    ensures SameListeners(subs, AllNeedMmap(subs))
  {
  }

  /** Entries and delivery progress are no concern of the lists. */
  lemma ProgressSilent(rules: map<int, Rule>, t: Topic, u: Topic, notify: map<int, NotifyList>)
    requires NotifyOk(rules, t, notify) && u.rule == t.rule && u.pubs == t.pubs && SameListeners(t.subs, u.subs)
    ensures NotifyOk(rules, u, notify)
  {
    NotifyDependsOnListeners(rules, t, u, notify, notify);
  }

  lemma HandedOutSilent(t: Topic, s: int, batch: seq<Entry>)
    requires s in t.subs
    ensures SameListeners(t.subs, HandedOut(t, s, batch).subs)
    ensures HandedOut(t, s, batch).rule == t.rule && HandedOut(t, s, batch).pubs == t.pubs
  {
  }

  /** Registering rules leaves the lists of a store alone whose own rule is untouched. */
  lemma RulesSilent(rules: map<int, Rule>, after: map<int, Rule>, t: Topic, notify: map<int, NotifyList>)
    requires NotifyOk(rules, t, notify)
    requires t.rule.Some? ==>
      t.rule.value in rules && t.rule.value in after && after[t.rule.value] == rules[t.rule.value]
    ensures NotifyOk(after, t, notify)
  {
    hide Wakeable, Lists, Allows;
    forall p | p in notify ensures Lists(AudienceOf(after, t), t.pubs[p], notify[p].ctxs) {
      forall s | s in t.subs
        ensures Allows(after, t.rule, t.pubs[p], t.subs[s]) == Allows(rules, t.rule, t.pubs[p], t.subs[s])
      {
        SameAllows(rules, after, t.rule, t.pubs[p], t.subs[s]);
      }
      ListsDependOnAllows(AudienceOf(rules, t), AudienceOf(after, t), t.pubs[p], notify[p].ctxs);
    }
  }

  lemma SameAllows(rules: map<int, Rule>, after: map<int, Rule>, rule: Option<int>, p: Publisher, q: Subscriber)
    requires rule.Some? ==> rule.value in rules && rule.value in after && after[rule.value] == rules[rule.value]
    ensures Allows(after, rule, p, q) == Allows(rules, rule, p, q)
  {
  }

  lemma ListsDependOnAllows(a: Audience, b: Audience, p: Publisher, ctxs: seq<int>)
    requires Lists(a, p, ctxs) && b.subs == a.subs
    requires forall s :: s in a.subs ==> Allows(b.rules, b.rule, p, b.subs[s]) == Allows(a.rules, a.rule, p, a.subs[s])
    ensures Lists(b, p, ctxs)
  {
    hide Allows;
    var ids :| Enumerates(a, p, ids, ctxs);
    assert Enumerates(b, p, ids, ctxs);
  }

  /** Publishing changes neither the listeners nor who publishes. */
  lemma PublishingSilent(rules: map<int, Rule>, t: Topic, p: int, addr: int, notify: map<int, NotifyList>)
    requires NotifyOk(rules, t, notify) && p in t.pubs
    ensures NotifyOk(rules, Published(t, p, addr), notify) && p in notify
  {
    hide Lists, Reclaimable, Filter;
    NotifyDependsOnListeners(rules, t, Published(t, p, addr), notify, notify);
  }

  lemma CapacityAfterJoin(rules: map<int, Rule>, t: Topic, u: Topic, id: int, notify: map<int, NotifyList>)
    requires NotifyOk(rules, t, notify) && u.pubs == t.pubs
    requires id in u.subs && u.subs == t.subs[id := u.subs[id]]
    requires forall p :: p in notify ==> |Wakeable(t.subs)| + 1 <= notify[p].capacity
    ensures CapacityOk(u, notify)
  {
    hide Lists, Wakeable;
    WakeableAfterJoin(t.subs, u.subs, id);
  }

  lemma TakeJoinInNoList(rules: map<int, Rule>, t: Topic, u: Topic, id: int, notify: map<int, NotifyList>)
    requires NotifyOk(rules, t, notify) && u.pubs == t.pubs && u.rule == t.rule
    requires id !in t.subs && id in u.subs && u.subs == t.subs[id := u.subs[id]] && u.subs[id].ctx.None?
    ensures NotifyOk(rules, u, notify)
  {
    hide Lists;
    assert Wakeable(u.subs) == Wakeable(t.subs);
    NotifyDependsOnListeners(rules, t, u, notify, notify);
  }

  function KeptLists(lists: map<int, NotifyList>, pubs: map<int, Publisher>): map<int, NotifyList> {
    map p | p in lists && p in pubs :: lists[p]
  }

  lemma KeptListsSelf(lists: map<int, NotifyList>, pubs: map<int, Publisher>)
    requires lists.Keys == pubs.Keys
    ensures KeptLists(lists, pubs) == lists
  {
  }

  lemma KeptListsTwice(lists: map<int, NotifyList>, lists2: map<int, NotifyList>,
                       pubs2: map<int, Publisher>, pubs: map<int, Publisher>)
    requires lists2 == KeptLists(lists, pubs2) && pubs.Keys <= pubs2.Keys
    ensures KeptLists(lists2, pubs) == KeptLists(lists, pubs)
  {
  }

  lemma KeptListsAfter(lists: map<int, NotifyList>, before: map<int, Publisher>, after: map<int, Publisher>,
                       kept: map<int, NotifyList>, p: int)
    requires lists.Keys == before.Keys && p in before
    requires if p in after then after.Keys == before.Keys && kept == lists
             else after.Keys == before.Keys - {p} && kept == lists - {p}
    ensures kept == KeptLists(lists, after)
  {
  }

  lemma NotifyKeys(rules: map<int, Rule>, t: Topic, notify: map<int, NotifyList>)
    requires NotifyOk(rules, t, notify)
    ensures notify.Keys == t.pubs.Keys
  {
  }

  lemma SubscriberLeaves(rules: map<int, Rule>, t: Topic, s: int, notify: map<int, NotifyList>)
    requires NotifyOk(rules, t, notify) && s in t.subs
    ensures CapacityOk(t.(subs := t.subs - {s}), notify)
    ensures t.subs[s].ctx.None? ==> NotifyOk(rules, t.(subs := t.subs - {s}), notify)
  {
    hide Lists;
    SubscribersLeave(rules, t, {s}, notify);
    if t.subs[s].ctx.None? {
      assert Wakeable(t.subs - {s}) == Wakeable(t.subs);
      NotifyDependsOnListeners(rules, t, t.(subs := t.subs - {s}), notify, notify);
    }
  }

  lemma SubscribersLeave(rules: map<int, Rule>, t: Topic, gone: set<int>, notify: map<int, NotifyList>)
    requires NotifyOk(rules, t, notify)
    ensures CapacityOk(t.(subs := t.subs - gone), notify)
  {
    hide Lists;
    SubsetCardinality(Wakeable(t.subs - gone), Wakeable(t.subs));
  }

  lemma ListsAfterSweep(rules: map<int, Rule>, t: Topic, u: Topic, lists: map<int, NotifyList>,
                        kept: map<int, NotifyList>, doomed: set<int>)
    requires NotifyOk(rules, t, lists) && kept == KeptLists(lists, u.pubs)
    requires u.rule == t.rule && u.subs == t.subs && u.pubs == Recounted(t.pubs, doomed, u.entries)
    ensures NotifyOk(rules, u, kept)
  {
    hide Lists, Count;
    NotifyDependsOnListeners(rules, t, u, lists, kept);
  }

  lemma ListsAfterPurge(rules: map<int, Rule>, t: Topic, u: Topic, lists: map<int, NotifyList>,
                        kept: map<int, NotifyList>, doomed: set<int>)
    requires NotifyOk(rules, t, lists) && kept == KeptLists(lists, u.pubs) && u == Sweep(t, {}, doomed)
    ensures NotifyOk(rules, u, kept)
  {
    hide NotifyOk, Recounted, Swept;
    assert t.subs - {} == t.subs;
    ListsAfterSweep(rules, t, u, lists, kept, doomed);
  }

  lemma CapacitiesAfterSweep(a: map<int, NotifyList>, b: map<int, NotifyList>, c: map<int, NotifyList>,
                             pubs: map<int, Publisher>)
    requires a == b || (CapacitiesKept(a, b) && a.Keys == b.Keys)
    requires c == KeptLists(b, pubs)
    ensures CapacitiesKept(a, c)
  {
  }

  lemma CapacitiesKeptOnward(a: map<int, NotifyList>, b: map<int, NotifyList>, c: map<int, NotifyList>)
    requires CapacitiesKept(a, b) && CapacitiesKept(b, c) && c.Keys <= b.Keys <= a.Keys
    ensures CapacitiesKept(a, c)
  {
  }

  // ---------- The cache equals the filter ----------

  lemma EnumeratesExactly(a: Audience, p: Publisher, ids: seq<int>, ctxs: seq<int>)
    requires Enumerates(a, p, ids, ctxs)
    ensures |ctxs| == |Listeners(a, p)| <= |Wakeable(a.subs)|
    ensures forall s :: s in Listeners(a, p) ==> a.subs[s].ctx.value in ctxs
    ensures forall c :: c in ctxs ==> exists s :: s in Listeners(a, p) && a.subs[s].ctx.value == c
  {
    hide Allows;
    var listeners := Listeners(a, p);
    assert |ctxs| == |listeners| by {
      DistinctCardinality(ids);
      assert (set x | x in ids) == listeners;
    }
    SubsetCardinality(listeners, Wakeable(a.subs));
    forall s | s in listeners ensures a.subs[s].ctx.value in ctxs {
      var i :| 0 <= i < |ids| && ids[i] == s;
      assert ctxs[i] == a.subs[s].ctx.value;
    }
    forall c | c in ctxs ensures exists s :: s in listeners && a.subs[s].ctx.value == c {
      var i :| 0 <= i < |ctxs| && ctxs[i] == c;
      assert ids[i] in listeners;
    }
  }

  /** `ctxs` are the contexts of the subscribers `woken`: one each, and no others. */
  ghost predicate Wakes(subs: map<int, Subscriber>, woken: set<int>, ctxs: seq<int>) {
    && |ctxs| == |woken|
    && (forall s :: s in woken ==> s in subs && subs[s].ctx.Some? && subs[s].ctx.value in ctxs)
    && (forall c :: c in ctxs ==> exists s :: s in woken && s in subs && subs[s].ctx == Some(c))
  }

  /** A cached list is as long as its filter is large, holds every listener's context, and nobody else's. */
  lemma WokenExactly(rules: map<int, Rule>, t: Topic, p: int, notify: map<int, NotifyList>)
    requires NotifyOk(rules, t, notify) && p in t.pubs
    ensures p in notify && |notify[p].ctxs| <= notify[p].capacity
    ensures Wakes(t.subs, Listeners(AudienceOf(rules, t), t.pubs[p]), notify[p].ctxs)
  {
    hide Allows;
    var a := AudienceOf(rules, t);
    var ids :| Enumerates(a, t.pubs[p], ids, notify[p].ctxs);
    EnumeratesExactly(a, t.pubs[p], ids, notify[p].ctxs);
  }
}
