// What a publish inserts, reclaims and wakes, in terms of the messages and the subscribers.

module PublishAnswers {
  import opened Base
  import opened Seqs
  import opened TopicModel
  import opened StoreInvariant
  import opened DomainRules
  import opened NotifyLists
  import opened Mempools
  import opened KernelModel
  import opened KernelInvariant
  import opened ProcessInvariant
  import opened DeliveryOrder
  import opened Delivery
  import opened Answers

  /** The message the publish inserts. */
  function Newcomer(s: State, op: Op, T: int): Entry
    requires op.PublishMsg? && T in s.topics
  {
    Entry(s.topics[T].nextEntry, op.id, op.addr, {})
  }

  /** The publisher's messages, the new one included. */
  ghost function Own(t: Topic, m: Entry): set<Entry> {
    set e | e in t.entries + [m] && e.publisher == m.publisher
  }

  /** Those nobody references and the depth does not protect; the newest message is always protected. */
  ghost function Spare(t: Topic, m: Entry, depth: nat): set<Entry> {
    set e | e in Own(t, m) && e.refs == {} && |NotOlderThan(Own(t, m), e.id)| > Max(1, depth)
  }

  // ---------- Reclamation by rank ----------

  lemma ReclaimableByRank(t: Topic, p: int, addr: int)
    requires Consistent(t) && p in t.pubs
    ensures var m := Entry(t.nextEntry, p, addr, {});
      var spare, gone := Spare(t, m, t.pubs[p].depth), Reclaimable(Inserted(t, p, addr), p);
      && Ascending(gone)
      && (forall e :: e in gone <==> e in spare && |NotNewerThan(spare, e.id)| <= 3)
      && (|gone| < 3 <==> |spare| < 3)
      && m !in gone
  {
    hide Filter, NotOlderThan, NotNewerThan, Consistent, Spare, Own;
    var t1, m := Inserted(t, p, addr), Entry(t.nextEntry, p, addr, {});
    InsertedKeeps(t, p, addr);
    StoreAscending(t1);
    OwnByRank(t, p, addr);
    var free, spare := Filter(Excess(t1, p), Unreferenced()), Spare(t, m, t.pubs[p].depth);
    ExcessAscending(t1, p);
    FilterAscending(Excess(t1, p), Unreferenced());
    PrefixByRank(free, spare, 3);
    AscendingDistinct(free);
    DistinctCardinality(free);
    assert spare == set e | e in free;
  }

  lemma OwnByRank(t: Topic, p: int, addr: int)
    requires Consistent(t) && p in t.pubs
    ensures var t1, m := Inserted(t, p, addr), Entry(t.nextEntry, p, addr, {});
      && (forall e :: e in Filter(Excess(t1, p), Unreferenced()) <==> e in Spare(t, m, t.pubs[p].depth))
      && m !in Spare(t, m, t.pubs[p].depth)
  {
    hide Filter, NotOlderThan, Consistent;
    var t1, m := Inserted(t, p, addr), Entry(t.nextEntry, p, addr, {});
    var own := Filter(t1.entries, OwnedBy(p));
    InsertedKeeps(t, p, addr);
    StoreAscending(t1);
    FilterAscending(t1.entries, OwnedBy(p));
    FilterMembers(t1.entries, OwnedBy(p));
    assert forall e :: e in own <==> e in Own(t, m);
    var n := Max(1, t.pubs[p].depth);
    SuffixByRank(own, Own(t, m), n);
    FilterMembers(Excess(t1, p), Unreferenced());
    forall e | e in own ensures e in Excess(t1, p) <==> |NotOlderThan(Own(t, m), e.id)| > n {
      ExcessOrProtected(own, n, e);
    }
    assert m in t1.entries && m in own;
    EntryIds(t1);
    NewestProtected(own, Own(t, m), m);
  }

  lemma ExcessOrProtected(own: seq<Entry>, n: nat, e: Entry)
    requires Ascending(own) && e in own
    ensures e in own[..Max(0, |own| - n)] <==> e !in own[|own| - Min(n, |own|)..]
  {
    var k := Max(0, |own| - n);
    AscendingDistinct(own);
    assert k == |own| - Min(n, |own|);
    var i :| 0 <= i < |own| && own[i] == e;
    InPrefixOrSuffix(own, k, i);
  }

  lemma NewestProtected(own: seq<Entry>, all: set<Entry>, m: Entry)
    requires Ascending(own) && m in own && forall e :: e in own <==> e in all
    requires forall e :: e in own ==> e.id <= m.id
    ensures |NotOlderThan(all, m.id)| == 1
  {
    hide NotOlderThan;
    var i :| 0 <= i < |own| && own[i] == m;
    assert own[|own| - 1] in own;
    assert i == |own| - 1;
    RankFromEnd(own, all, i);
  }

  // ---------- The call ----------

  /** The publish was not refused: the message has been inserted. */
  predicate Inserts(r: Reply) {
    r.PublishReply? && (r.result.Ok? || (r.result.error != EINVAL && r.result.error != ENOMEM))
  }

  /** A publish is refused, and changes nothing, for these reasons only. */
  lemma PublishRefused(s: State, op: Op)
    requires Inv(s) && Allowed(s, op) && op.PublishMsg?
    ensures var found, r := StoreAt(s, op.pid, op.ns, op.name), Step(s, op).1;
      var k := s.procs[op.pid].pool;
      var mine := found.Some? && op.id in s.topics[found.value].pubs;
      var inPool := k < |s.pools| && s.pools[k].addr <= op.addr < s.pools[k].addr + s.poolSize;
      && r.PublishReply?
      && (!Inserts(r) <==> !mine || !inPool || !op.allocOk)
      && (!Inserts(r) ==> r.result.error == (if mine && inPool then ENOMEM else EINVAL) && Step(s, op).0 == s)
  {
    hide Inv, Published, Inserted, Reclaimable, WalkRunsOff, Listeners, DoAddProcess, DoCheckBridgeShutdown,
         DoAddAgent, DoAgentShouldExit, DoCommitExit, AddExact, AddPrefix, DoJoinSubscriber, DoJoinPublisher,
         DoReceive, DoTake, DoRelease, DoLeaveSubscriber, DoLeavePublisher, DoExit;
  }

  /**
    A publish that is not refused adds the message and hands back, oldest first, the first three spare
    ones. It fails with -ENODATA exactly at depth zero with fewer than three to spare, and otherwise
    returns the new id.
   */
  lemma PublishAnswer(s: State, op: Op, T: int)
    requires Inv(s) && Allowed(s, op) && PublishesTo(s, op, T) && Inserts(Step(s, op).1)
    ensures var u, r, m := Step(s, op).0, Step(s, op).1, Newcomer(s, op, T);
      var t := s.topics[T];
      && T in u.topics && op.id in t.pubs
      && var spare := Spare(t, m, t.pubs[op.id].depth);
      && Ascending(r.released)
      && (forall e :: e in r.released <==> e in spare && |NotNewerThan(spare, e.id)| <= 3)
      && (forall e :: e in u.topics[T].entries <==> (e in t.entries || e == m) && e !in r.released)
      && m in u.topics[T].entries
      && r.result == if t.pubs[op.id].depth == 0 && |spare| < 3 then Err(ENODATA) else Ok(m.id)
  {
    hide Inv, Filter, Reclaimable, NotNewerThan, Spare, Consistent, NoStaleDead, EndpointsOk, Homed, Listeners,
         DoAddProcess, DoCheckBridgeShutdown, DoAddAgent, DoAgentShouldExit, DoCommitExit, AddExact, AddPrefix,
         DoJoinSubscriber, DoJoinPublisher, DoReceive, DoTake, DoRelease, DoLeaveSubscriber, DoLeavePublisher, DoExit;
    var t := s.topics[T];
    StoreFacts(s, T);
    ReclaimableByRank(t, op.id, op.addr);
    var t1 := Inserted(t, op.id, op.addr);
    FilterMembers(t1.entries, NotAmong(Reclaimable(t1, op.id)));
  }

  /**
    A publish wakes exactly the subscribers with a context for whom the new message is pending: those
    that a receive could hand it to.
   */
  lemma WakesReceivers(s: State, op: Op, T: int)
    requires Inv(s) && Allowed(s, op) && PublishesTo(s, op, T) && Inserts(Step(s, op).1) && Step(s, op).1.result.Ok?
    ensures var u, r, m := Step(s, op).0, Step(s, op).1, Newcomer(s, op, T);
      && T in u.topics
      && var t := u.topics[T];
      forall q :: q in r.woken <==> q in t.subs && t.subs[q].ctx.Some? && Pending(WorldOf(u), t, t.subs[q], m)
  {
    hide Inv, Filter, Reclaimable, WalkRunsOff, DeliveryAllowed, Ascending, CountsOk, RefsOk, NoStaleDead, EndpointsOk,
         Homed, DoAddProcess, DoCheckBridgeShutdown, DoAddAgent, DoAgentShouldExit, DoCommitExit, AddExact, AddPrefix,
         DoJoinSubscriber, DoJoinPublisher, DoReceive, DoTake, DoRelease, DoLeaveSubscriber, DoLeavePublisher, DoExit;
    StoreFacts(s, T);
    PublishAnswer(s, op, T);
  }
}
