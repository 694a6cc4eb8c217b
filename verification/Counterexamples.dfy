// One run, step by step, that ends in the states in which two tempting claims fail.
//
// A publisher in domain 2 (process 10) and a subscriber in domain 1 (process 11) meet under a bridge
// rule. The publisher's process exits while the subscriber holds its one message. Then the subscriber
// either leaves, or releases the message.

module Counterexamples {
  import opened Base
  import opened Seqs
  import opened Sets
  import opened TopicModel
  import opened DomainRules
  import opened NotifyLists
  import opened Mempools
  import opened KernelModel
  import opened KernelInvariant
  import opened ProcessInvariant
  import opened Reclamation
  import opened StrandedMessages
  import opened WrapperDomains
  import opened ShmInfo

  const NAME: string := "/t"
  const HERE: Cell := Cell(0, NAME, 1)
  const THERE: Cell := Cell(0, NAME, 2)

  // ---------- The tables along the run ----------

  function Proc(domain: nat, pool: nat, exited: bool): Process {
    Process(exited, Application, 0, domain, pool)
  }

  function Bridge(): Rule {
    Rule(0, NAME, NAME, 1, 2, false, true, false)
  }

  function Writer(entriesNum: nat): Publisher {
    Publisher(2, 10, 1, false, entriesNum)
  }

  function Reader(latest: int, needMmap: bool): Subscriber {
    Subscriber(1, 11, 1, latest, false, needMmap, false, None)
  }

  function Pools(first: seq<int>, second: seq<int>): seq<Pool> {
    [Pool(0, |first|, first), Pool(100, |second|, second)]
  }

  function Loaded(): State {
    State(map[], {}, map[], 0, map[], map[], 0, Pools([], []), 0, 100)
  }

  function WriterRegistered(): State {
    Loaded().(procs := map[10 := Proc(2, 0, false)], pools := Pools([10], []))
  }

  function BothRegistered(): State {
    Loaded().(procs := map[10 := Proc(2, 0, false), 11 := Proc(1, 1, false)], pools := Pools([10], [11]))
  }

  function Bridged(): State {
    BothRegistered().(rules := map[0 := Bridge()], nextRule := 1)
  }

  function WriterStore(): Topic {
    Topic([], map[0 := Writer(0)], map[], 1, 0, Some(0), 1)
  }

  function WriterJoined(): State {
    Bridged().(wrappers := map[THERE := 0], topics := map[0 := WriterStore()], nextTopic := 1)
  }

  function SharedStore(): Topic {
    Topic([], map[0 := Writer(0)], map[1 := Reader(-1, true)], 2, 0, Some(0), 2)
  }

  function Shared(t: Topic): State {
    Bridged().(wrappers := map[THERE := 0, HERE := 0], topics := map[0 := t], nextTopic := 1)
  }

  function PublishedStore(): Topic {
    Topic([Entry(0, 0, 64, {})], map[0 := Writer(1)], map[1 := Reader(-1, true)], 2, 1, Some(0), 2)
  }

  function HeldStore(): Topic {
    Topic([Entry(0, 0, 64, {1})], map[0 := Writer(1)], map[1 := Reader(0, false)], 2, 1, Some(0), 2)
  }

  function Received(): State {
    Shared(HeldStore()).(pools := Pools([11, 10], [11]))
  }

  function WriterDead(t: Topic): State {
    Shared(t).(procs := map[10 := Proc(2, 0, true), 11 := Proc(1, 1, false)], pools := Pools([11], [11]))
  }

  function ReleasedStore(): Topic {
    Topic([Entry(0, 0, 64, {})], map[0 := Writer(1)], map[1 := Reader(0, false)], 2, 1, Some(0), 2)
  }

  function EmptiedStore(): Topic {
    Topic([], map[], map[], 2, 1, Some(0), 1)
  }

  function ReaderGone(): State {
    WriterDead(EmptiedStore()).(wrappers := map[THERE := 0])
  }

  // ---------- The operations ----------

  function Ops(): seq<Op> {
    [AddProcess(10, 0, Application, 2, true),
     AddProcess(11, 0, Application, 1, true),
     AddBridge(0, NAME, NAME, 2, 1, true),
     JoinPublisher(0, NAME, PubArgs(10, 1, false), true, NoFault),
     JoinSubscriber(0, NAME, SubArgs(11, 1, true, false, false, None), true, NoFault),
     PublishMsg(10, 0, NAME, 0, 64, true),
     ReceiveMsg(11, 0, NAME, 1, 1, ShmFault(false, {})),
     ProcessExit(10)]
  }

  function States(): seq<State> {
    [Loaded(), WriterRegistered(), BothRegistered(), Bridged(), WriterJoined(), Shared(SharedStore()),
     Shared(PublishedStore()), Received(), WriterDead(HeldStore())]
  }

  // ---------- Registration ----------

  lemma RegisterWriter()
    ensures Allowed(Loaded(), Ops()[0]) && Step(Loaded(), Ops()[0]).0 == WriterRegistered()
  {
    hide HasDaemon, HasManager, HasAgent;
    assert FirstFree(Pools([], [])) == 0;
    assert [10] + [] == [10];
  }

  lemma RegisterReader()
    ensures Allowed(WriterRegistered(), Ops()[1]) && Step(WriterRegistered(), Ops()[1]).0 == BothRegistered()
  {
    hide HasDaemon, HasManager, HasAgent;
    var pools := Pools([10], []);
    assert pools[1..][0] == pools[1];
    assert FirstFree(pools) == 1;
    assert [11] + [] == [11];
    assert Assign(pools, 11) == Pools([10], [11]);
  }

  lemma RegisterBridge()
    ensures Allowed(BothRegistered(), Ops()[2]) && Step(BothRegistered(), Ops()[2]).0 == Bridged()
  {
  }

  lemma BridgeCovers()
    ensures Disjoint(map[0 := Bridge()])
    ensures Find(map[0 := Bridge()], HERE) == Some(0) == Find(map[0 := Bridge()], THERE)
    ensures Partner(map[0 := Bridge()], HERE) == Some(THERE) && Partner(map[0 := Bridge()], THERE) == Some(HERE)
  {
    FindIs(map[0 := Bridge()], HERE, 0);
    FindIs(map[0 := Bridge()], THERE, 0);
  }

  function WriterWrapped(): State {
    Bridged().(wrappers := map[THERE := 0], topics := map[0 := EmptyTopic(Some(0))], nextTopic := 1)
  }

  lemma WriterWraps()
    ensures AddTopic(Bridged(), THERE, true) == (WriterWrapped(), Some(0))
  {
    hide Find, Partner;
    BridgeCovers();
  }

  lemma JoinWriter()
    ensures Allowed(Bridged(), Ops()[3]) && Step(Bridged(), Ops()[3]).0 == WriterJoined()
  {
    hide AddTopic, DoAddProcess, DoCheckBridgeShutdown, DoAddAgent, DoAgentShouldExit, DoCommitExit, AddExact,
         AddPrefix, DoJoinSubscriber, DoPublish, DoReceive, DoTake, DoRelease, DoLeaveSubscriber, DoLeavePublisher,
         DoExit;
    WriterWraps();
  }

  lemma ReaderWraps()
    ensures AddTopic(WriterJoined(), HERE, true) == (Shared(WriterStore().(refcnt := 2)), Some(0))
  {
    hide Find, Partner;
    BridgeCovers();
    var s, t := WriterJoined(), WriterStore().(refcnt := 2);
    assert s.wrappers[THERE] == 0 && s.topics[0 := t] == map[0 := t];
    assert map[THERE := 0][HERE := 0] == map[THERE := 0, HERE := 0];
  }

  lemma JoinReader()
    ensures Allowed(WriterJoined(), Ops()[4]) && Step(WriterJoined(), Ops()[4]).0 == Shared(SharedStore())
  {
    hide AddTopic, DoAddProcess, DoCheckBridgeShutdown, DoAddAgent, DoAgentShouldExit, DoCommitExit, AddExact,
         AddPrefix, DoJoinPublisher, DoPublish, DoReceive, DoTake, DoRelease, DoLeaveSubscriber, DoLeavePublisher,
         DoExit;
    ReaderWraps();
  }

  // ---------- One message ----------

  const MESSAGE: Entry := Entry(0, 0, 64, {})

  lemma FilterOne(e: Entry, f: Entry -> bool)
    ensures Filter([e], f) == if f(e) then [e] else []
  {
    FilterAppend([], e, f);
    assert [] + [e] == [e];
  }

  lemma OneOwnMessage(e: Entry)
    ensures Count([e], e.publisher) == 1
    ensures Filter([e], NotAmong([])) == [e]
  {
    FilterOne(e, OwnedBy(e.publisher));
    FilterOne(e, NotAmong([]));
  }

  lemma OneMessagePublished()
    ensures Published(SharedStore(), 0, 64) == PublishedStore()
    ensures !WalkRunsOff(Inserted(SharedStore(), 0, 64), 0)
  {
    var t1 := Inserted(SharedStore(), 0, 64);
    assert t1.entries == [MESSAGE];
    OneOwnMessage(MESSAGE);
    assert Filter(t1.entries, OwnedBy(0)) == [MESSAGE] by { FilterOne(MESSAGE, OwnedBy(0)); }
    assert Excess(t1, 0) == [];
    assert Reclaimable(t1, 0) == [];
  }

  lemma PublishOne()
    ensures Allowed(Shared(SharedStore()), Ops()[5])
    ensures Step(Shared(SharedStore()), Ops()[5]).0 == Shared(PublishedStore())
  {
    hide Published, Inserted, Reclaimable, WalkRunsOff, Listeners, DoAddProcess, DoCheckBridgeShutdown, DoAddAgent,
         DoAgentShouldExit, DoCommitExit, AddExact, AddPrefix, DoJoinSubscriber, DoJoinPublisher, DoReceive, DoTake,
         DoRelease, DoLeaveSubscriber, DoLeavePublisher, DoExit;
    OneMessagePublished();
    assert map[THERE := 0, HERE := 0][THERE] == 0;
  }

  lemma MessageDeliverable()
    ensures Deliverable(WorldOf(Shared(PublishedStore())), PublishedStore(), Reader(-1, true), MESSAGE)
  {
  }

  lemma OneMessageReceived()
    ensures Batch(WorldOf(Shared(PublishedStore())), PublishedStore(), Reader(-1, true)) == [MESSAGE]
  {
    hide Deliverable, Filter;
    var w, t, q := WorldOf(Shared(PublishedStore())), PublishedStore(), Reader(-1, true);
    MessageDeliverable();
    assert Wanted(w, t, q, 0)(MESSAGE);
    FilterOne(MESSAGE, Wanted(w, t, q, 0));
    assert t.entries == [MESSAGE];
    assert Window(w, t, q) == [MESSAGE];
  }

  lemma OneMessageHandedOut()
    ensures HandedOut(PublishedStore(), 1, [MESSAGE]) == HeldStore().(subs := map[1 := Reader(0, true)])
  {
    var t := PublishedStore();
    assert MESSAGE in [MESSAGE] && {} + {1} == {1};
    assert Marked(t.entries, [MESSAGE], 1) == HeldStore().entries;
    assert t.subs[1 := Reader(0, true)] == map[1 := Reader(0, true)];
  }

  lemma WriterMapped(t1: Topic)
    requires t1 == HeldStore().(subs := map[1 := Reader(0, true)])
    ensures MapPublishers(Shared(PublishedStore()), 0, t1, 1, 1, 1, ShmFault(false, {})).0 == Received()
  {
    hide PoolsToMap, Unmappable, MappedInto;
    var s := Shared(PublishedStore());
    var q := t1.subs[1];
    WriterPool(s, t1, q);
    assert t1.subs[1 := Reader(0, false)] == HeldStore().subs;
    assert s.topics[0 := HeldStore()] == map[0 := HeldStore()];
  }

  lemma WriterPool(s: State, t1: Topic, q: Subscriber)
    requires s == Shared(PublishedStore()) && q == Reader(0, true)
    requires t1 == HeldStore().(subs := map[1 := Reader(0, true)])
    ensures PoolsToMap(s, t1, q, 1) == {0} && Unmappable(s.pools, {0}, 11) == {0}
    ensures MappedInto(s.pools, {0}, 11) == Pools([11, 10], [11])
  {
    assert MustMap(WorldOf(s), t1.rule, t1.pubs[0], q, 1);
    assert PoolsToMap(s, t1, q, 1) == {0};
    assert Unmappable(s.pools, {0}, 11) == {0};
    assert [11] + [10] == [11, 10];
    assert MappedInto(s.pools, {0}, 11) == Pools([11, 10], [11]);
  }

  lemma ReceiveOne()
    ensures Allowed(Shared(PublishedStore()), Ops()[6])
    ensures Step(Shared(PublishedStore()), Ops()[6]).0 == Received()
  {
    hide Batch, HandedOut, MapPublishers, Window, DoAddProcess, DoCheckBridgeShutdown, DoAddAgent, DoAgentShouldExit,
         DoCommitExit, AddExact, AddPrefix, DoJoinSubscriber, DoJoinPublisher, DoPublish, DoTake, DoRelease,
         DoLeaveSubscriber, DoLeavePublisher, DoExit;
    OneMessageReceived();
    OneMessageHandedOut();
    WriterMapped(HeldStore().(subs := map[1 := Reader(0, true)]));
    assert map[THERE := 0, HERE := 0][HERE] == 0;
  }

  // ---------- The writer dies ----------

  lemma HeldStoreExits(procs: map<int, Process>)
    requires procs == WriterDead(HeldStore()).procs
    ensures Exit(procs, HeldStore(), 10) == HeldStore()
  {
    hide Filter, Count;
    var t := HeldStore();
    assert SubscribersOf(t, 10) == {} && PublishersOf(t, 10) == {0} && t.subs - {} == t.subs;
    HeldEntrySurvives();
    assert Recounted(t.pubs, {0}, t.entries) == t.pubs;
  }

  lemma HeldEntrySurvives()
    ensures Swept(HeldStore().entries, {}, {0}) == HeldStore().entries && Count(HeldStore().entries, 0) == 1
  {
    var e := HeldStore().entries[0];
    assert {1} - {} == {1};
    assert Cleared([e], {}) == [e];
    FilterOne(e, Survives({0}));
    OneOwnMessage(e);
  }

  lemma BothCells(wrappers: map<Cell, int>)
    requires wrappers == map[THERE := 0, HERE := 0]
    ensures CellsOf(wrappers, 0) == {HERE, THERE} && |CellsOf(wrappers, 0)| == 2
  {
    assert CellsOf(wrappers, 0) == {HERE, THERE};
  }

  lemma WriterExits()
    ensures Allowed(Received(), Ops()[7]) && Step(Received(), Ops()[7]).0 == WriterDead(HeldStore())
  {
    hide Exit, CellsOf, Free, HasDomainEndpoint, DoAddProcess, DoCheckBridgeShutdown, DoAddAgent, DoAgentShouldExit,
         DoCommitExit, AddExact, AddPrefix, DoJoinSubscriber, DoJoinPublisher, DoPublish, DoReceive, DoTake, DoRelease,
         DoLeaveSubscriber, DoLeavePublisher;
    var s := Received();
    var procs := Exited(s.procs, 10);
    assert procs == WriterDead(HeldStore()).procs;
    HeldStoreExits(procs);
    var topics := ExitTopics(procs, s.topics, 10);
    assert topics == s.topics;
    BothDomainsInUse();
    assert InUse(s.wrappers, topics) == s.wrappers;
    BothCells(s.wrappers);
    assert Referred(s.wrappers, topics) == s.topics;
    assert Free(s.pools, 10) == Pools([11], [11]) by { WriterUnmapped(); }
    assert WithoutAgent({}, 10) == {};
  }

  lemma BothDomainsInUse()
    ensures HasDomainEndpoint(HeldStore(), 1) && HasDomainEndpoint(HeldStore(), 2)
  {
    assert 0 in HeldStore().pubs && 1 in HeldStore().subs;
  }

  lemma WriterUnmapped()
    ensures Free(Pools([11, 10], [11]), 10) == Pools([11], [11])
  {
    assert [11, 10][1..] == [10];
    assert Index([11, 10], 10) == 1;
    assert [11, 10][..1] + [11, 10][2..] == [11];
  }

  // ---------- The run ----------

  lemma RunOfEight()
    ensures Run(States(), Ops())
  {
    hide Allowed, Step;
    RegisterWriter();
    RegisterReader();
    RegisterBridge();
    JoinWriter();
    JoinReader();
    PublishOne();
    ReceiveOne();
    WriterExits();
    forall i | 0 <= i < |Ops()|
      ensures Allowed(States()[i], Ops()[i]) && States()[i + 1] == Step(States()[i], Ops()[i]).0
    {
      assert i == 0 || i == 1 || i == 2 || i == 3 || i == 4 || i == 5 || i == 6 || i == 7;
    }
    assert LaidOut(Pools([], []), 0, 100);
  }

  lemma RunStopped(states: seq<State>, ops: seq<Op>, n: nat)
    requires Run(states, ops) && n <= |ops|
    ensures Run(states[..n + 1], ops[..n])
  {
    hide Allowed, Step, Init;
    var fewer := states[..n + 1];
    forall i | 0 <= i < n ensures Allowed(fewer[i], ops[..n][i]) && fewer[i + 1] == Step(fewer[i], ops[..n][i]).0 {
      assert fewer[i] == states[i] && ops[..n][i] == ops[i] && fewer[i + 1] == states[i + 1];
    }
  }

  lemma RunOnward(op: Op, u: State)
    requires Allowed(WriterDead(HeldStore()), op) && Step(WriterDead(HeldStore()), op).0 == u
    ensures Run(States() + [u], Ops() + [op])
  {
    hide Allowed, Step, Run;
    RunOfEight();
    RunExtended(States(), Ops(), op, u);
  }

  // ---------- The reader leaves ----------

  lemma ReaderRemoved(procs: map<int, Process>)
    requires procs == WriterDead(HeldStore()).procs
    ensures RemoveSubscriber(procs, HeldStore(), 1) == EmptiedStore().(refcnt := 2)
  {
    var t := HeldStore();
    assert DeadPublishers(procs, t) == {0};
    assert {1} - {1} == {};
    assert Cleared(t.entries, {1}) == [MESSAGE];
    FilterOne(MESSAGE, Survives({0}));
    assert Recounted(t.pubs, {0}, []) == map[];
    assert t.subs - {1} == map[];
  }

  lemma ReaderLeaves()
    ensures Allowed(WriterDead(HeldStore()), LeaveSubscriber(11, 0, NAME, 1))
    ensures Step(WriterDead(HeldStore()), LeaveSubscriber(11, 0, NAME, 1)).0 == ReaderGone()
  {
    hide RemoveSubscriber, DoAddProcess, DoCheckBridgeShutdown, DoAddAgent, DoAgentShouldExit, DoCommitExit, AddExact,
         AddPrefix, DoJoinSubscriber, DoJoinPublisher, DoPublish, DoReceive, DoTake, DoRelease, DoLeavePublisher,
         DoExit;
    ReaderRemoved(WriterDead(HeldStore()).procs);
    assert map[THERE := 0, HERE := 0][HERE] == 0;
    assert map[THERE := 0, HERE := 0] - {HERE} == map[THERE := 0];
  }

  /**
    "Every wrapper has an endpoint of its own domain" fails in a state the module reaches: when the
    reader of domain 1 leaves, the wrapper of domain 2 is left without any.
   */
  lemma WrapperMayLoseItsDomain()
    ensures var states, ops := States() + [ReaderGone()], Ops() + [LeaveSubscriber(11, 0, NAME, 1)];
      && Run(states, ops)
      && THERE in states[9].wrappers && states[9].wrappers[THERE] in states[9].topics
      && !HasDomainEndpoint(states[9].topics[states[9].wrappers[THERE]], THERE.domain)
  {
    ReaderLeaves();
    RunOnward(LeaveSubscriber(11, 0, NAME, 1), ReaderGone());
    hide Run;
    assert (States() + [ReaderGone()])[9] == ReaderGone();
  }

  // ---------- The reader releases ----------

  lemma ReaderReleases()
    ensures Allowed(WriterDead(HeldStore()), ReleaseRef(11, 0, NAME, 1, 0))
    ensures Step(WriterDead(HeldStore()), ReleaseRef(11, 0, NAME, 1, 0)).0 == WriterDead(ReleasedStore())
  {
    hide DoAddProcess, DoCheckBridgeShutdown, DoAddAgent, DoAgentShouldExit, DoCommitExit, AddExact, AddPrefix,
         DoJoinSubscriber, DoJoinPublisher, DoPublish, DoReceive, DoTake, DoLeaveSubscriber, DoLeavePublisher, DoExit;
    var t := HeldStore();
    assert t.entries[0].id == 0 && 1 in t.entries[0].refs;
    assert Holds(t, 1, 0);
    assert {1} - {1} == {};
    assert Unmarked(t.entries, 0, 1) == ReleasedStore().entries;
    assert Release(t, 1, 0).0 == ReleasedStore();
    assert map[THERE := 0, HERE := 0][HERE] == 0;
  }

  /** "A dead publisher has no unreferenced message" fails in a state the module reaches. */
  lemma ReleasedDeadEntryStays()
    ensures var states := States() + [WriterDead(ReleasedStore())];
      && Run(states, Ops() + [ReleaseRef(11, 0, NAME, 1, 0)])
      && 0 in states[9].topics && Stranded(states[9].procs, states[9].topics[0])
  {
    ReaderReleases();
    RunOnward(ReleaseRef(11, 0, NAME, 1, 0), WriterDead(ReleasedStore()));
    hide Run;
    var u := WriterDead(ReleasedStore());
    assert (States() + [u])[9] == u;
    assert MESSAGE in u.topics[0].entries && 0 in DeadPublishers(u.procs, u.topics[0]);
  }

  // ---------- A join fails ----------

  function FailingJoin(): Op {
    JoinPublisher(0, NAME, PubArgs(10, 1, false), true, AllocFault)
  }

  lemma WriterRefused()
    ensures Allowed(Bridged(), FailingJoin()) && Step(Bridged(), FailingJoin()).0 == WriterWrapped()
  {
    hide AddTopic, DoAddProcess, DoCheckBridgeShutdown, DoAddAgent, DoAgentShouldExit, DoCommitExit, AddExact,
         AddPrefix, DoJoinSubscriber, DoPublish, DoReceive, DoTake, DoRelease, DoLeaveSubscriber, DoLeavePublisher,
         DoExit;
    WriterWraps();
  }

  /** It fails in another way, too: the wrapper that a refused join has made stays without any endpoint. */
  lemma RefusedJoinLeavesWrapper()
    ensures var states, ops := States()[..4] + [WriterWrapped()], Ops()[..3] + [FailingJoin()];
      && Run(states, ops)
      && THERE in states[4].wrappers && states[4].wrappers[THERE] in states[4].topics
      && !HasDomainEndpoint(states[4].topics[states[4].wrappers[THERE]], THERE.domain)
  {
    hide Run, Allowed, Step;
    RunOfEight();
    RunStopped(States(), Ops(), 3);
    WriterRefused();
    RunExtended(States()[..4], Ops()[..3], FailingJoin(), WriterWrapped());
    assert (States()[..4] + [WriterWrapped()])[4] == WriterWrapped();
  }

  // ---------- A publisher of depth zero ----------

  function ShallowWriter(entriesNum: nat): Publisher {
    Publisher(2, 10, 0, false, entriesNum)
  }

  function Shallow(entries: seq<Entry>, next: nat): State {
    var t := Topic(entries, map[0 := ShallowWriter(|entries|)], map[], 1, next, None, 1);
    WriterRegistered().(wrappers := map[THERE := 0], topics := map[0 := t], nextTopic := 1)
  }

  const SHALLOW_JOIN: Op := JoinPublisher(0, NAME, PubArgs(10, 0, false), true, NoFault)
  const SHALLOW_PUBLISH: Op := PublishMsg(10, 0, NAME, 0, 64, true)

  lemma ShallowJoins()
    ensures Allowed(WriterRegistered(), SHALLOW_JOIN)
    ensures Step(WriterRegistered(), SHALLOW_JOIN).0 == Shallow([], 0)
  {
    hide DoAddProcess, DoCheckBridgeShutdown, DoAddAgent, DoAgentShouldExit, DoCommitExit, AddExact,
         AddPrefix, DoJoinSubscriber, DoPublish, DoReceive, DoTake, DoRelease, DoLeaveSubscriber, DoLeavePublisher,
         DoExit;
  }

  lemma ShallowStore(t: Topic)
    requires 0 in Shallow([], 0).topics && t == Shallow([], 0).topics[0]
    ensures 0 in t.pubs && WalkRunsOff(Inserted(t, 0, 64), 0) && Reclaimable(Inserted(t, 0, 64), 0) == []
    ensures Published(t, 0, 64) == t.(entries := [MESSAGE], nextEntry := 1, pubs := map[0 := ShallowWriter(1)])
  {
    var t1 := Inserted(t, 0, 64);
    assert t1.entries == [MESSAGE];
    FilterOne(MESSAGE, OwnedBy(0));
    FilterOne(MESSAGE, NotAmong([]));
    assert Excess(t1, 0) == [];
  }

  lemma ShallowPublishes()
    ensures Allowed(Shallow([], 0), SHALLOW_PUBLISH)
    ensures Step(Shallow([], 0), SHALLOW_PUBLISH) == (Shallow([MESSAGE], 1), PublishReply(Err(ENODATA), [], {}))
  {
    hide Published, Inserted, Reclaimable, WalkRunsOff, Listeners, DoAddProcess, DoCheckBridgeShutdown, DoAddAgent,
         DoAgentShouldExit, DoCommitExit, AddExact, AddPrefix, DoJoinSubscriber, DoJoinPublisher, DoReceive, DoTake,
         DoRelease, DoLeaveSubscriber, DoLeavePublisher, DoExit;
    ShallowStore(Shallow([], 0).topics[0]);
    assert map[THERE := 0][THERE] == 0;
    assert Put(Shallow([], 0), 0, Shallow([MESSAGE], 1).topics[0]) == Shallow([MESSAGE], 1);
  }

  /** The exit that is meant to be unreachable is taken by the first publish of a publisher with depth zero. */
  lemma DepthZeroPublishFails()
    ensures var states := [Loaded(), WriterRegistered(), Shallow([], 0), Shallow([MESSAGE], 1)];
      && Run(states, [Ops()[0], SHALLOW_JOIN, SHALLOW_PUBLISH])
      && Step(states[2], SHALLOW_PUBLISH).1 == PublishReply(Err(ENODATA), [], {})
  {
    hide Run, Allowed, Step;
    RunOfEight();
    RunStopped(States(), Ops(), 1);
    ShallowJoins();
    RunExtended(States()[..2], Ops()[..1], SHALLOW_JOIN, Shallow([], 0));
    ShallowPublishes();
    RunExtended(States()[..2] + [Shallow([], 0)], Ops()[..1] + [SHALLOW_JOIN], SHALLOW_PUBLISH, Shallow([MESSAGE], 1));
    assert States()[..2] + [Shallow([], 0)] + [Shallow([MESSAGE], 1)]
        == [Loaded(), WriterRegistered(), Shallow([], 0), Shallow([MESSAGE], 1)];
    assert Ops()[..1] + [SHALLOW_JOIN] + [SHALLOW_PUBLISH] == [Ops()[0], SHALLOW_JOIN, SHALLOW_PUBLISH];
  }
}
