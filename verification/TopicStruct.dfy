// struct topic_struct with the functions that walk and update it in place.
//
// Each method is proved against the loop-free description of TopicModel. Hash tables are scanned in
// an arbitrary order, and an allocation fails whenever the caller's parameters say so.

module TopicStructs {
  import opened Base
  import opened Seqs
  import opened Sets
  import opened TopicModel
  import opened StoreInvariant
  import opened WalkLemmas
  import opened DepartureLemmas
  import opened NotifyLists

  /** What a receive reports: ids and addresses in step, and whether more is waiting. */
  datatype Received = Received(ids: seq<int>, addrs: seq<int>, callAgain: bool)

  /** The checks both kinds of endpoint pass, in order, before anything is committed. */
  function JoinRefusal(present: nat, limit: nat, nextId: nat, allocOk: bool): Option<Errno> {
    if present == limit then Some(ENOBUFS)
    else if nextId >= MAX_TOPIC_LOCAL_ID then Some(ENOSPC)
    else if !allocOk then Some(ENOMEM)
    else None
  }

  /** Removing one publisher spares the others and their lists. */
  lemma PublisherGone(rules: map<int, Rule>, t: Topic, p: int, others: set<int>,
                      first: map<int, NotifyList>, before: map<int, NotifyList>, after: map<int, NotifyList>)
    requires Consistent(t) && NotifyOk(rules, t, before) && NotifyOk(rules, RemovePublisher(t, p), after)
    requires p !in others && others <= t.pubs.Keys
    requires CapacitiesKept(first, before) && CapacitiesKept(before, after) && before.Keys <= first.Keys
    ensures others <= RemovePublisher(t, p).pubs.Keys
    ensures CapacitiesKept(first, after) && after.Keys <= first.Keys
  {
    hide Consistent, NotifyOk, RemovePublisher, CapacitiesKept;
    SweepSpares(t, p, others);
    NotifyKeys(rules, RemovePublisher(t, p), after);
    NotifyKeys(rules, t, before);
    FewerPublishers(t, p);
    CapacitiesKeptOnward(first, before, after);
  }

  class TopicStruct {
    var entries: seq<Entry>
    var pubs: map<int, Publisher>
    var subs: map<int, Subscriber>
    var notify: map<int, NotifyList>
    var currentPubsubId: nat
    var currentEntryId: nat
    var wrapperRefcnt: nat
    var rule: Option<int>

    function View(): Topic
      reads this
    {
      Topic(entries, pubs, subs, currentPubsubId, currentEntryId, rule, wrapperRefcnt)
    }

    ghost predicate Valid(rules: map<int, Rule>)
      reads this
    {
      Consistent(View()) && NotifyOk(rules, View(), notify)
    }

    constructor (r: Option<int>, ghost rules: map<int, Rule>)
      ensures View() == EmptyTopic(r) && Valid(rules)
    {
      entries, pubs, subs, notify := [], map[], map[], map[];
      currentPubsubId, currentEntryId, wrapperRefcnt, rule := 0, 0, 1, r;
    }

    // ---------- Notify lists ----------

    /** The contexts of everybody a publication of `p` must wake, at most `capacity` of them. */
    method FilteredContexts(rules: map<int, Rule>, p: Publisher, capacity: nat) returns (ctxs: seq<int>)
      requires |Wakeable(subs)| <= capacity
      ensures Lists(AudienceOf(rules, View()), p, ctxs)
    {
      ctxs := [];
      ghost var ids := [];
      ghost var audience := AudienceOf(rules, View());
      var remaining := subs.Keys;
      while remaining != {}
        invariant remaining <= subs.Keys
        invariant |ids| == |ctxs| && Distinct(ids)
        invariant forall s :: s in ids <==> Notifiable(audience, p, s) && s !in remaining
        invariant forall i :: 0 <= i < |ids| ==>
          Notifiable(audience, p, ids[i]) && ctxs[i] == subs[ids[i]].ctx.value
        decreases remaining
      {
        hide DeliveryAllowed;
        var s := Pick(remaining);
        remaining := remaining - {s};
        var q := subs[s];
        if q.ctx.None? { continue; }
        if !Allows(rules, rule, p, q) { continue; }
        if q.ignoreLocal && q.pid == p.pid { continue; }
        RoomForOneMore(subs, ids, s);
        if |ctxs| == capacity { break; }
        ids := ids + [s];
        ctxs := ctxs + [q.ctx.value];
      }
      assert Enumerates(audience, p, ids, ctxs);
    }

    method RebuildAllNotifyLists(rules: map<int, Rule>)
      requires CapacityOk(View(), notify)
      modifies this`notify
      ensures NotifyOk(rules, View(), notify)
      ensures notify.Keys == old(notify).Keys && CapacitiesKept(old(notify), notify)
    {
      hide Lists;
      var remaining := pubs.Keys;
      while remaining != {}
        invariant remaining <= pubs.Keys && CapacityOk(View(), notify)
        invariant notify.Keys == old(notify).Keys && CapacitiesKept(old(notify), notify)
        invariant forall p :: p in pubs && p !in remaining ==> Lists(AudienceOf(rules, View()), pubs[p], notify[p].ctxs)
        decreases remaining
      {
        var p := Pick(remaining);
        remaining := remaining - {p};
        var ctxs := FilteredContexts(rules, pubs[p], notify[p].capacity);
        notify := notify[p := NotifyList(ctxs, notify[p].capacity)];
      }
    }

    /** Grows the array of one publisher. The filled prefix is carried across. */
    method ReserveNotifyCtxs(id: int, needed: nat, allocOk: bool) returns (ok: bool)
      requires id in notify && needed <= MAX_SUBSCRIBER_NUM && notify[id].capacity <= MAX_SUBSCRIBER_NUM
      modifies this`notify
      ensures ok <==> allocOk || needed <= old(notify)[id].capacity
      ensures id in notify && notify == old(notify)[id := NotifyList(old(notify)[id].ctxs, notify[id].capacity)]
      ensures old(notify)[id].capacity <= notify[id].capacity <= MAX_SUBSCRIBER_NUM
      ensures ok ==> needed <= notify[id].capacity
    {
      var list := notify[id];
      if needed <= list.capacity { return true; }
      var capacity := if list.capacity != 0 then list.capacity * 2 else NOTIFY_CTXS_MIN_CAPACITY;
      if capacity > MAX_SUBSCRIBER_NUM { capacity := MAX_SUBSCRIBER_NUM; }
      if capacity < needed { capacity := needed; }
      if !allocOk { return false; }
      notify := notify[id := NotifyList(list.ctxs, capacity)];
      return true;
    }

    /** `budget` is how many of the array allocations succeed before one fails. */
    method ReserveAllNotifyCtxs(ghost rules: map<int, Rule>, needed: nat, budget: nat) returns (ok: bool)
      requires NotifyOk(rules, View(), notify) && needed <= MAX_SUBSCRIBER_NUM
      modifies this`notify
      ensures NotifyOk(rules, View(), notify) && CapacitiesKept(old(notify), notify)
      ensures notify.Keys == old(notify).Keys && ContentsKept(old(notify), notify)
      ensures ok ==> forall p :: p in notify ==> needed <= notify[p].capacity
      ensures budget >= |pubs| ==> ok
    {
      hide Lists;
      var remaining := pubs.Keys;
      var left := budget;
      while remaining != {}
        invariant remaining <= pubs.Keys
        invariant ContentsKept(old(notify), notify) && CapacitiesKept(old(notify), notify)
        invariant forall p :: p in notify ==> notify[p].capacity <= MAX_SUBSCRIBER_NUM
        invariant forall p :: p in notify && p !in remaining ==> needed <= notify[p].capacity
        invariant budget >= |pubs| ==> left >= |remaining|
        decreases remaining
      {
        var p := Pick(remaining);
        var grows := needed > notify[p].capacity;
        ok := ReserveNotifyCtxs(p, needed, left > 0);
        if !ok {
          GrownNotifyOk(rules, View(), old(notify), notify);
          return;
        }
        if grows { left := left - 1; }
        remaining := remaining - {p};
      }
      GrownNotifyOk(rules, View(), old(notify), notify);
      ok := true;
    }

    // ---------- Joining ----------

    method InsertSubscriberInfo(rules: map<int, Rule>, domain: nat, a: SubArgs, allocOk: bool, budget: nat)
      returns (r: Result<int>, ghost fault: Fault)
      requires Valid(rules)
      modifies this`currentPubsubId, this`currentEntryId, this`subs, this`notify
      ensures Valid(rules) && CapacitiesKept(old(notify), notify)
      ensures View() == AddSubscriber(old(View()), domain, a, fault).0
      ensures r == AddSubscriber(old(View()), domain, a, fault).1
      ensures fault.AllocFault? <==> !allocOk
      ensures allocOk && budget >= |pubs| ==> fault.NoFault?
      ensures r.Err? ==> ContentsKept(old(notify), notify)
    {
      hide Consistent, NotifyOk, ContentsKept, CapacitiesKept, Wakeable;
      ghost var t0, before := View(), notify;
      AddSubscriberKeeps(t0, domain, a, NoFault);
      WakeableFits(t0);
      NotifyKeptSelf(notify);
      fault := if allocOk then NoFault else AllocFault;
      var refusal := JoinRefusal(|subs|, MAX_SUBSCRIBER_NUM, currentPubsubId, allocOk);
      if refusal.Some? { return Err(refusal.value), fault; }
      if a.ctx.Some? {
        var ok := ReserveAllNotifyCtxs(rules, |Wakeable(subs)| + 1, budget);
        if !ok {
          return Err(ENOMEM), ReserveFault;
        }
      }
      ghost var reserved := notify;
      var id := LinkSubscriberInfo(rules, domain, a);
      CapacitiesKeptTwice(before, reserved, notify);
      assert View() == AddSubscriber(t0, domain, a, NoFault).0;
      r := Ok(id);
    }

    /** The infallible half of a join. */
    method LinkSubscriberInfo(rules: map<int, Rule>, domain: nat, a: SubArgs) returns (id: int)
      requires NotifyOk(rules, View(), notify) && currentPubsubId !in subs
      requires a.ctx.Some? ==> forall p :: p in notify ==> |Wakeable(subs)| + 1 <= notify[p].capacity
      modifies this`currentPubsubId, this`currentEntryId, this`subs, this`notify
      ensures id == old(currentPubsubId) && currentPubsubId == id + 1 && notify.Keys == old(notify).Keys
      ensures currentEntryId == if a.transientLocal then old(currentEntryId) else old(currentEntryId) + 1
      ensures subs == old(subs)[id := NewSubscriber(old(View()), domain, a)]
      ensures NotifyOk(rules, View(), notify) && CapacitiesKept(old(notify), notify)
    {
      hide NotifyOk;
      ghost var t0 := View();
      id := currentPubsubId;
      currentPubsubId := currentPubsubId + 1;
      var latest: int := -1;
      if !a.transientLocal {
        latest := currentEntryId;
        currentEntryId := currentEntryId + 1;
      }
      subs := subs[id := Subscriber(domain, a.pid, a.depth, latest, a.ignoreLocal, true, a.isBridge, a.ctx)];
      if a.ctx.Some? {
        CapacityAfterJoin(rules, t0, View(), id, notify);
        RebuildAllNotifyLists(rules);
      } else {
        TakeJoinInNoList(rules, t0, View(), id, notify);
      }
    }

    /** Allocates and fills the list of a publisher that is not linked yet. */
    method FirstNotifyList(rules: map<int, Rule>, p: Publisher, arrayOk: bool) returns (list: Option<NotifyList>)
      requires |Wakeable(subs)| <= MAX_SUBSCRIBER_NUM
      ensures list.None? ==> !arrayOk
      ensures list.Some? ==>
        && |Wakeable(subs)| <= list.value.capacity <= MAX_SUBSCRIBER_NUM
        && Lists(AudienceOf(rules, View()), p, list.value.ctxs)
    {
      var needed := |Wakeable(subs)|;
      var capacity := 0;
      if needed > 0 {
        if !arrayOk { return None; }
        capacity := Max(Min(NOTIFY_CTXS_MIN_CAPACITY, MAX_SUBSCRIBER_NUM), needed);
      }
      var ctxs := FilteredContexts(rules, p, capacity);
      list := Some(NotifyList(ctxs, capacity));
    }

    method InsertPublisherInfo(rules: map<int, Rule>, domain: nat, a: PubArgs, allocOk: bool, arrayOk: bool)
      returns (r: Result<int>, ghost fault: Fault)
      requires Valid(rules)
      modifies this`currentPubsubId, this`pubs, this`notify, this`subs
      ensures Valid(rules) && CapacitiesKept(old(notify), notify)
      ensures View() == AddPublisher(old(View()), domain, a, fault).0
      ensures r == AddPublisher(old(View()), domain, a, fault).1
      ensures fault.AllocFault? <==> !allocOk
      ensures allocOk && arrayOk ==> fault.NoFault?
      ensures r.Err? ==> ContentsKept(old(notify), notify)
    {
      hide Consistent, ContentsKept, CapacitiesKept, Wakeable, Lists, AllNeedMmap, NotifyOk;
      ghost var t0, before := View(), notify;
      WakeableFits(t0);
      NotifyKeptSelf(notify);
      fault := if allocOk then NoFault else AllocFault;
      var refusal := JoinRefusal(|pubs|, MAX_PUBLISHER_NUM, currentPubsubId, allocOk);
      if refusal.Some? { return Err(refusal.value), fault; }
      var id := currentPubsubId;
      currentPubsubId := currentPubsubId + 1;
      var p := Publisher(domain, a.pid, a.depth, a.isBridge, 0);
      var list := FirstNotifyList(rules, p, arrayOk);
      if list.None? {
        AddPublisherKeeps(t0, domain, a, ReserveFault);
        UnusedIdSilent(rules, t0, View(), notify);
        return Err(ENOMEM), ReserveFault;
      }
      UnusedIdSilent(rules, t0, View(), notify);
      LinkPublisherInfo(rules, id, p, list.value);
      AddPublisherKeeps(t0, domain, a, NoFault);
      r := Ok(id);
    }

    /** The infallible half of a publisher's join. */
    method LinkPublisherInfo(ghost rules: map<int, Rule>, id: int, p: Publisher, list: NotifyList)
      requires NotifyOk(rules, View(), notify) && id !in pubs
      requires |Wakeable(subs)| <= list.capacity <= MAX_SUBSCRIBER_NUM
      requires Lists(AudienceOf(rules, View()), p, list.ctxs)
      modifies this`pubs, this`notify, this`subs
      ensures pubs == old(pubs)[id := p] && subs == AllNeedMmap(old(subs))
      ensures NotifyOk(rules, View(), notify) && CapacitiesKept(old(notify), notify)
    {
      hide NotifyOk, Lists, Wakeable, AllNeedMmap;
      ghost var t0, before := View(), notify;
      pubs := pubs[id := p];
      notify := notify[id := list];
      RequestMmapUpdates();
      MmapFlagSilent(t0.subs);
      PublisherJoins(rules, t0, View(), id, before, notify);
    }

    /** Tells every subscriber that there is a new publisher to map. */
    method RequestMmapUpdates()
      modifies this`subs
      ensures subs == AllNeedMmap(old(subs))
    {
      ghost var before := subs;
      var remaining := subs.Keys;
      while remaining != {}
        invariant remaining <= subs.Keys == before.Keys
        invariant forall s :: s in subs ==>
          subs[s] == if s in remaining then before[s] else before[s].(needMmap := true)
        decreases remaining
      {
        var s := Pick(remaining);
        remaining := remaining - {s};
        subs := subs[s := subs[s].(needMmap := true)];
      }
      assert forall s :: s in subs ==> subs[s] == AllNeedMmap(before)[s];
      assert subs.Keys == AllNeedMmap(before).Keys;
    }

    // ---------- Publishing ----------

    /** The tree is walked down its right spine, whose last node holds the largest id. */
    method InsertMessageEntry(p: int, addr: int, allocOk: bool) returns (r: Result<int>)
      requires EntriesOk(View()) && p in pubs
      modifies this`entries, this`pubs, this`currentEntryId
      ensures allocOk ==> View() == Inserted(old(View()), p, addr) && r == Ok(old(currentEntryId))
      ensures !allocOk ==> View() == old(View()) && r == Err(ENOMEM)
    {
      if !allocOk { return Err(ENOMEM); }
      var id := currentEntryId;
      currentEntryId := currentEntryId + 1;
      if entries != [] {
        var last := entries[|entries| - 1];
        assert last in entries;
        if id <= last.id { return Err(ECANCELED); }
      }
      entries := entries + [Entry(id, p, addr, {})];
      pubs := pubs[p := pubs[p].(entriesNum := pubs[p].entriesNum + 1)];
      r := Ok(id);
    }

    /** Called right after this publisher inserted the newest entry. */
    method ReleaseMsgsToMeetDepth(p: int) returns (r: Result<()>, addrs: seq<int>, ghost victims: seq<Entry>)
      requires Consistent(View()) && p in pubs
      requires entries != [] && entries[|entries| - 1].publisher == p
      modifies this`entries, this`pubs
      ensures victims == Reclaimable(old(View()), p) && addrs == AddrsOf(victims)
      ensures View() == Without(old(View()), p, victims)
      ensures r == if WalkRunsOff(old(View()), p) then Err(ENODATA) else Ok(())
    {
      hide Consistent, Filter, Reclaimable, WalkAt, WalkRunsOff;
      ghost var t0, k := View(), 0;
      addrs, victims := [], [];
      if pubs[p].entriesNum <= pubs[p].depth {
        assert entries[|entries| - 1] in entries;
        NothingInExcess(t0, p);
        return Ok(()), addrs, victims;
      }
      var search := pubs[p].entriesNum - pubs[p].depth;
      var node := 0;
      WalkStarts(t0, p, search);
      while search > 0 && |addrs| < MAX_RELEASE_NUM
        invariant WalkAt(t0, p, k, node, entries, victims, search) && search >= 0
        invariant addrs == AddrsOf(victims) && |victims| <= MAX_RELEASE_NUM
        invariant |victims| <= t0.pubs[p].entriesNum
        invariant pubs == t0.pubs[p := t0.pubs[p].(entriesNum := t0.pubs[p].entriesNum - |victims|)]
        decreases |t0.entries| - k
      {
        WalkStep(t0, p, k, node, entries, victims, search);
        var en := entries[node];
        if node + 1 == |entries| {
          return Err(ENODATA), addrs, victims;
        }
        k := k + 1;
        if en.publisher != p { node := node + 1; continue; }
        search := search - 1;
        if en.refs != {} { node := node + 1; continue; }
        addrs := addrs + [en.addr];
        victims := victims + [en];
        entries := entries[..node] + entries[node + 1..];
        pubs := pubs[p := pubs[p].(entriesNum := pubs[p].entriesNum - 1)];
      }
      WalkStops(t0, p, k, node, entries, victims, search);
      r := Ok(());
    }

    /** A publication up to the unlocking: the entry, what it reclaims, and whom it wakes. */
    method PublishHere(ghost rules: map<int, Rule>, p: int, addr: int, allocOk: bool)
      returns (r: Result<int>, addrs: seq<int>, ctxs: seq<int>)
      requires Valid(rules) && p in pubs
      modifies this`entries, this`pubs, this`currentEntryId
      ensures Valid(rules)
      ensures !allocOk ==> View() == old(View()) && r == Err(ENOMEM) && addrs == [] && ctxs == []
      ensures allocOk ==> View() == Published(old(View()), p, addr)
      ensures allocOk ==>
        var t1 := Inserted(old(View()), p, addr);
        && addrs == AddrsOf(Reclaimable(t1, p))
        && r == (if WalkRunsOff(t1, p) then Err(ENODATA) else Ok(old(currentEntryId)))
        && ctxs == if WalkRunsOff(t1, p) then [] else old(notify)[p].ctxs
    {
      hide EntriesOk, CountsOk, RefsOk, IdsOk, NotifyOk, Reclaimable, WalkRunsOff, Without;
      ghost var t0 := View();
      addrs, ctxs := [], [];
      InsertedKeeps(t0, p, addr);
      PublishedKeeps(t0, p, addr);
      PublishingSilent(rules, t0, p, addr, notify);
      var inserted := InsertMessageEntry(p, addr, allocOk);
      if inserted.Err? { return inserted, addrs, ctxs; }
      ghost var victims;
      var swept;
      swept, addrs, victims := ReleaseMsgsToMeetDepth(p);
      if swept.Err? { return Err(swept.error), addrs, ctxs; }
      r, ctxs := inserted, notify[p].ctxs;
    }

    // ---------- Delivery ----------

    function IsEntryDeliverable(w: World, q: Subscriber, e: Entry): Result<bool>
      reads this
    {
      if e.publisher !in pubs then Err(ENODATA)
      else
        var p := pubs[e.publisher];
        if Dead(w.procs, p.pid) then Ok(false)
        else if q.ignoreLocal && q.pid == p.pid then Ok(false)
        else Ok(Allows(w.rules, rule, p, q))
    }

    /** The backward walk of a receive: where the window starts (past the end if it is empty) and how long it is. */
    method FindWindow(w: World, q: Subscriber) returns (r: Result<(nat, nat)>)
      requires Consistent(View())
      ensures r.Ok? && BackEnd(w, View(), q, q.latest + 1, r.value.0, r.value.1)
    {
      hide Consistent, BackAt, BackEnd;
      var oldestWanted := q.latest + 1;
      var node: nat, num: nat, back: nat := |entries|, 0, |entries|;
      BackStarts(w, View(), q, oldestWanted);
      while back > 0 && num < q.depth
        invariant BackAt(w, View(), q, oldestWanted, back, node, num) && back <= |entries|
      {
        BackStep(w, View(), q, oldestWanted, back, node, num);
        var en := entries[back - 1];
        if en.id < oldestWanted { break; }
        var deliverable := IsEntryDeliverable(w, q, en);
        if deliverable.Err? { return Err(ENODATA); }
        back := back - 1;
        if deliverable.value {
          node, num := back, num + 1;
        }
      }
      BackStops(w, View(), q, oldestWanted, back, node, num);
      r := Ok((node, num));
    }

    method ReceiveMsgCore(w: World, s: int) returns (r: Result<Received>)
      requires Consistent(View()) && s in subs
      modifies this`entries, this`subs
      ensures View() == Receive(w, old(View()), s)
      ensures var q := old(subs)[s]; var batch := Batch(w, old(View()), q);
        r == Ok(Received(IdsOf(batch), AddrsOf(batch), |Window(w, old(View()), q)| > MAX_RECEIVE_NUM))
    {
      hide Consistent, BackEnd, Batch, Window, ForwardAt, Newest;
      ghost var t0, handed := View(), [];
      var info := subs[s];
      if entries == [] || info.depth == 0 {
        NothingToReceive(w, t0, info);
        return Ok(Received([], [], false));
      }
      var found := FindWindow(w, info);
      if found.Err? { return Err(ENODATA); }
      var node, num := found.value.0, found.value.1;
      ForwardStarts(w, t0, s, node, num);
      var ids, addrs, callAgain := [], [], false;
      var k: nat := node;
      while k < |entries|
        invariant ForwardAt(w, t0, s, node, num, k, entries, handed)
        invariant k <= |entries| == |t0.entries|
        invariant ids == IdsOf(handed) && addrs == AddrsOf(handed) && |handed| <= MAX_RECEIVE_NUM
        invariant View() == t0.(entries := entries) && !callAgain
      {
        ForwardStep(w, t0, s, node, num, k, entries, handed);
        var en := entries[k];
        if |ids| == MAX_RECEIVE_NUM {
          callAgain := |ids| < num;
          break;
        }
        var deliverable := IsEntryDeliverable(w, info, en);
        if deliverable.Err? { return Err(ENODATA); }
        k := k + 1;
        if !deliverable.value { continue; }
        if s in en.refs { return Err(EALREADY); }
        entries := entries[k - 1 := en.(refs := en.refs + {s})];
        handed := handed + [t0.entries[k - 1]];
        ids := ids + [en.id];
        addrs := addrs + [en.addr];
      }
      ForwardStops(w, t0, s, node, num, k, entries, handed);
      if |ids| > 0 {
        subs := subs[s := subs[s].(latest := ids[|ids| - 1])];
      }
      r := Ok(Received(ids, addrs, callAgain));
    }

    method TakeMsgCore(w: World, s: int, allowSame: bool) returns (r: Result<Option<Entry>>)
      requires Consistent(View()) && s in subs
      modifies this`entries, this`subs
      ensures View() == Take(w, old(View()), s, allowSame)
      ensures var candidate := TakeCandidate(w, old(View()), old(subs)[s], allowSame);
        r == Ok(if candidate == [] then None else Some(candidate[0]))
    {
      hide Consistent, BackAt, BackEnd, TakeCandidate;
      ghost var t0 := View();
      var info := subs[s];
      ghost var floor := TakeFloor(info, allowSame);
      var candidate: nat, searched: nat, node: nat := |entries|, 0, |entries|;
      BackStarts(w, t0, info, floor);
      while node > 0 && searched < info.depth
        invariant BackAt(w, t0, info, floor, node, candidate, searched) && node <= |entries|
        invariant View() == t0
      {
        BackStep(w, t0, info, floor, node, candidate, searched);
        var en := entries[node - 1];
        if !allowSame && en.id == info.latest { break; }
        if en.id < info.latest { break; }
        var deliverable := IsEntryDeliverable(w, info, en);
        if deliverable.Err? { return Err(ENODATA); }
        node := node - 1;
        if deliverable.value {
          candidate, searched := node, searched + 1;
        }
      }
      BackStops(w, t0, info, floor, node, candidate, searched);
      TakeOldest(w, t0, s, allowSame, candidate, searched);
      if candidate == |entries| { return Ok(None); }
      var en := entries[candidate];
      if s in en.refs && !allowSame { return Err(EALREADY); }
      entries := entries[candidate := en.(refs := en.refs + {s})];
      subs := subs[s := subs[s].(latest := en.id)];
      r := Ok(Some(en));
    }

    method ReleaseReference(s: int, id: int) returns (r: Result<()>)
      requires EntriesOk(View())
      modifies this`entries
      ensures View() == Release(old(View()), s, id).0 && r == Release(old(View()), s, id).1
    {
      var node := 0;
      while node < |entries| && entries[node].id != id
        invariant node <= |entries| && forall i :: 0 <= i < node ==> entries[i].id != id
        invariant View() == old(View())
      {
        node := node + 1;
      }
      if node == |entries| { return Err(EINVAL); }
      if s < 0 || s >= MAX_TOPIC_LOCAL_ID { return Err(EINVAL); }
      var en := entries[node];
      if s !in en.refs { return Err(EINVAL); }
      entries := entries[node := en.(refs := en.refs - {s})];
      assert entries == Unmarked(old(entries), id, s);
      r := Ok(());
    }

    // ---------- Departure ----------

    /** The walk for one departed subscriber: clear its bits, drop what dead publishers now own unreferenced. */
    method SweepSubscriberRefs(procs: map<int, Process>, s: int, ghost pubs0: map<int, Publisher>,
        ghost doomed: set<int>)
      requires SweepReady(procs, entries, pubs, pubs0, doomed) && notify.Keys == pubs.Keys
      modifies this`entries, this`pubs, this`notify
      ensures entries == Swept(old(entries), {s}, doomed)
      ensures SweepReady(procs, entries, pubs, pubs0, doomed)
      ensures pubs.Keys <= old(pubs).Keys && notify == KeptLists(old(notify), pubs)
    {
      hide Swept, SweepReady, SweepAt;
      ghost var es0, lists, k := entries, notify, 0;
      var node := 0;
      SweepStarts(procs, es0, s, doomed, pubs0, pubs);
      while node < |entries|
        invariant SweepAt(procs, es0, s, doomed, pubs0, k, node, entries, pubs) && k <= |es0|
        invariant pubs.Keys <= old(pubs).Keys && notify == KeptLists(lists, pubs) && notify.Keys == pubs.Keys
        decreases |es0| - k
      {
        SweepStep(procs, es0, s, doomed, pubs0, k, node, entries, pubs);
        k := k + 1;
        var en := entries[node].(refs := entries[node].refs - {s});
        entries := entries[node := en];
        if en.refs != {} { node := node + 1; continue; }
        var p := en.publisher;
        if p !in pubs || !Dead(procs, pubs[p].pid) { node := node + 1; continue; }
        entries := entries[..node] + entries[node + 1..];
        ghost var counted := pubs;
        pubs := pubs[p := pubs[p].(entriesNum := pubs[p].entriesNum - 1)];
        if pubs[p].entriesNum == 0 {
          pubs := pubs - {p};
          assert pubs == counted - {p};
          notify := notify - {p};
        }
      }
      SweepEnds(procs, es0, s, doomed, pubs0, k, node, entries, pubs);
    }

    method UnlinkSubscriberInfo(rules: map<int, Rule>, s: int)
      requires NotifyOk(rules, View(), notify) && s in subs
      modifies this`subs, this`notify
      ensures subs == old(subs) - {s} && NotifyOk(rules, View(), notify)
      ensures notify.Keys == old(notify).Keys && CapacitiesKept(old(notify), notify)
    {
      hide NotifyOk, Wakeable, CapacitiesKept;
      ghost var t0 := View();
      var wasNotifiable := subs[s].ctx.Some?;
      subs := subs - {s};
      SubscriberLeaves(rules, t0, s, notify);
      NotifyKeptSelf(notify);
      if wasNotifiable { RebuildAllNotifyLists(rules); }
    }

    method RemoveSubscriberInfo(w: World, s: int)
      requires Valid(w.rules) && NoStaleDead(w.procs, View()) && s in subs
      modifies this`entries, this`pubs, this`subs, this`notify
      ensures View() == RemoveSubscriber(w.procs, old(View()), s)
      ensures Valid(w.rules) && CapacitiesKept(old(notify), notify)
    {
      hide Consistent, NotifyOk, SweepReady, NoStaleDead, Swept, Recounted, CapacitiesKept;
      ghost var t0, lists0 := View(), notify;
      ghost var doomed := DeadPublishers(w.procs, t0);
      UnlinkSubscriberInfo(w.rules, s);
      ghost var t1, lists1 := View(), notify;
      DeadOwnEntries(w.procs, t0);
      ReadyToSweep(w.procs, t0, doomed);
      NotifyKeys(w.rules, t1, notify);
      SweepSubscriberRefs(w.procs, s, t0.pubs, doomed);
      SweepDone(w.procs, entries, pubs, t0.pubs, doomed);
      SweepKeeps(t0, {s}, doomed);
      ListsAfterSweep(w.rules, t1, View(), lists1, notify, doomed);
      CapacitiesAfterSweep(lists0, lists1, notify, pubs);
    }

    /** The walk for one departed publisher: drop its unreferenced entries, and itself if none is left. */
    method PurgePublisher(p: int)
      requires Consistent(View()) && p in pubs && notify.Keys == pubs.Keys
      modifies this`entries, this`pubs, this`notify
      ensures View() == Sweep(old(View()), {}, {p}) && notify == KeptLists(old(notify), pubs)
    {
      hide Consistent, Swept, PurgeAt;
      ghost var t0, lists, k := View(), notify, 0;
      var node := 0;
      PurgeStarts(t0, p);
      while node < |entries|
        invariant PurgeAt(t0, p, k, node, entries, pubs) && k <= |t0.entries| && p in pubs && notify == lists
        decreases |t0.entries| - k
      {
        PurgeStep(t0, p, k, node, entries, pubs);
        k := k + 1;
        var en := entries[node];
        if en.publisher != p { node := node + 1; continue; }
        if en.refs != {} { node := node + 1; continue; }
        pubs := pubs[p := pubs[p].(entriesNum := pubs[p].entriesNum - 1)];
        entries := entries[..node] + entries[node + 1..];
      }
      PurgeEnds(t0, p, k, node, entries, pubs);
      if pubs[p].entriesNum == 0 {
        pubs := pubs - {p};
        notify := notify - {p};
      }
      KeptListsAfter(lists, t0.pubs, pubs, notify, p);
    }

    method RemovePublisherInfo(ghost rules: map<int, Rule>, p: int)
      requires Valid(rules) && p in pubs
      modifies this`entries, this`pubs, this`notify
      ensures View() == RemovePublisher(old(View()), p) && Valid(rules) && CapacitiesKept(old(notify), notify)
    {
      hide Consistent, NotifyOk, Sweep, CapacitiesKept;
      ghost var t0, lists := View(), notify;
      NotifyKeys(rules, t0, notify);
      PurgePublisher(p);
      SweepKeeps(t0, {}, {p});
      ListsAfterPurge(rules, t0, View(), lists, notify, {p});
      CapacitiesAfterSweep(lists, lists, notify, pubs);
    }

    method PreHandlerPublisherExit(ghost rules: map<int, Rule>, pid: int)
      requires Valid(rules)
      modifies this`entries, this`pubs, this`notify
      ensures View() == Sweep(old(View()), {}, PublishersOf(old(View()), pid))
      ensures Valid(rules) && CapacitiesKept(old(notify), notify) && notify.Keys <= old(notify).Keys
    {
      hide Consistent, NotifyOk, Sweep, CapacitiesKept;
      ghost var t0, lists0, done := View(), notify, {};
      var remaining := PublishersOf(View(), pid);
      SweepNothing(t0);
      NotifyKeptSelf(notify);
      while remaining != {}
        invariant remaining !! done && remaining + done == PublishersOf(t0, pid) && remaining <= pubs.Keys
        invariant View() == Sweep(t0, {}, done) && Valid(rules)
        invariant CapacitiesKept(lists0, notify) && notify.Keys <= lists0.Keys
        decreases remaining
      {
        var p := Pick(remaining);
        ghost var t1, lists1 := View(), notify;
        remaining := remaining - {p};
        RemovePublisherInfo(rules, p);
        SweepBoth(t0, done, {p});
        PublisherGone(rules, t1, p, remaining, lists0, lists1, notify);
        done := done + {p};
      }
      assert done == PublishersOf(t0, pid);
    }

    method PreHandlerSubscriberExit(w: World, pid: int)
      requires Valid(w.rules) && SweepReady(w.procs, entries, pubs, pubs, DeadPublishers(w.procs, View()))
      modifies this`entries, this`pubs, this`subs, this`notify
      ensures var gone := SubscribersOf(old(View()), pid);
        View() == if gone == {} then old(View()) else Sweep(old(View()), gone, DeadPublishers(w.procs, old(View())))
      ensures Valid(w.rules) && CapacitiesKept(old(notify), notify) && notify.Keys <= old(notify).Keys
    {
      hide Consistent, NotifyOk, SweepReady, Swept, Recounted, CapacitiesKept, Wakeable;
      ghost var t0, lists0 := View(), notify;
      ghost var doomed := DeadPublishers(w.procs, t0);
      var leaving := SubscribersOf(View(), pid);
      subs := subs - leaving;
      NotifyKeptSelf(notify);
      if leaving == {} {
        assert subs == t0.subs;
        return;
      }
      SubscribersLeave(w.rules, t0, leaving, notify);
      RebuildAllNotifyLists(w.rules);
      ghost var t1, lists1, done := View(), notify, {};
      var remaining := leaving;
      KeptListsSelf(notify, pubs);
      NotifyKeys(w.rules, t1, notify);
      while remaining != {}
        invariant remaining !! done && remaining + done == leaving
        invariant done == {} || entries == Swept(t0.entries, done, doomed)
        invariant done == {} ==> entries == t0.entries
        invariant SweepReady(w.procs, entries, pubs, t0.pubs, doomed)
        invariant pubs.Keys <= t0.pubs.Keys && notify == KeptLists(lists1, pubs) && notify.Keys == pubs.Keys
        invariant View() == t1.(entries := entries, pubs := pubs)
        decreases remaining
      {
        var s := Pick(remaining);
        remaining := remaining - {s};
        ghost var lists2, pubs2 := notify, pubs;
        SweepSubscriberRefs(w.procs, s, t0.pubs, doomed);
        KeptListsTwice(lists1, lists2, pubs2, pubs);
        SweptTwice(t0.entries, done, {s}, doomed);
        assert done == {} ==> done + {s} == {s};
        done := done + {s};
      }
      assert done == leaving;
      SweepDone(w.procs, entries, pubs, t0.pubs, doomed);
      SweepKeeps(t0, leaving, doomed);
      ListsAfterSweep(w.rules, t1, View(), lists1, notify, doomed);
      CapacitiesAfterSweep(lists0, lists1, notify, pubs);
    }

    /** What process-exit cleanup does to one store; `w.procs` already has `pid` exited. */
    method ProcessExit(ghost before: map<int, Process>, w: World, pid: int)
      requires Valid(w.rules) && NoStaleDead(before, View()) && OnlyDied(before, w.procs, pid)
      modifies this`entries, this`pubs, this`subs, this`notify
      ensures View() == Exit(w.procs, old(View()), pid)
      ensures Valid(w.rules) && CapacitiesKept(old(notify), notify)
    {
      hide Consistent, NotifyOk, NoStaleDead, SweepReady, Sweep, CapacitiesKept;
      ghost var t0, lists0 := View(), notify;
      PreHandlerPublisherExit(w.rules, pid);
      ghost var t1, lists1 := View(), notify;
      ReadyAfterPublisherExit(before, w.procs, t0, pid);
      PreHandlerSubscriberExit(w, pid);
      ExitInTwoStages(w.procs, t0, pid);
      CapacitiesKeptOnward(lists0, lists1, notify);
    }

    method HasDomainEndpoints(domain: nat) returns (found: bool)
      ensures found == HasDomainEndpoint(View(), domain)
    {
      var ps := pubs.Keys;
      while ps != {}
        invariant ps <= pubs.Keys && forall p :: p in pubs && p !in ps ==> pubs[p].domain != domain
        decreases ps
      {
        var p := Pick(ps);
        if pubs[p].domain == domain { return true; }
        ps := ps - {p};
      }
      var ss := subs.Keys;
      while ss != {}
        invariant ss <= subs.Keys && forall s :: s in subs && s !in ss ==> subs[s].domain != domain
        decreases ss
      {
        var s := Pick(ss);
        if subs[s].domain == domain { return true; }
        ss := ss - {s};
      }
      found := false;
    }
  }
}
