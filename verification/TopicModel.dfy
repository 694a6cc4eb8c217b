// One topic store (topic_struct) as a value, and what every ioctl does to it, stated without loops.
//
// The entry tree is the sequence of its entries in key order, a reference bitmap is the set of its
// set bits, and the publisher and subscriber hash tables are maps keyed by topic-local id.

module TopicModel {
  import opened Base
  import opened Seqs

  // ---------- Tables the store reads but does not own ----------

  datatype Role = Application | BridgeManager | UnlinkDaemon

  datatype Process = Process(exited: bool, role: Role, ns: int, domain: nat, pool: nat)

  /** A domain bridge rule, stored canonically with domainA < domainB. */
  datatype Rule = Rule(
    ns: int, nameA: string, nameB: string, domainA: nat, domainB: nat,
    aToB: bool, bToA: bool, isPrefix: bool)

  /** The process table by global pid, and the rule table by rule address. */
  datatype World = World(procs: map<int, Process>, rules: map<int, Rule>)

  /** A publisher whose process has exited, or whose process entry is already drained, is dead. */
  predicate Dead(procs: map<int, Process>, pid: int) {
    pid !in procs || procs[pid].exited
  }

  // ---------- The store ----------

  datatype Entry = Entry(id: int, publisher: int, addr: int, refs: set<int>)

  datatype Publisher = Publisher(domain: nat, pid: int, depth: nat, isBridge: bool, entriesNum: nat)

  /** `ctx` is the eventfd context; it is absent exactly for take subscribers. */
  datatype Subscriber = Subscriber(
    domain: nat, pid: int, depth: nat, latest: int, ignoreLocal: bool, needMmap: bool,
    isBridge: bool, ctx: Option<int>)

  datatype Topic = Topic(
    entries: seq<Entry>, pubs: map<int, Publisher>, subs: map<int, Subscriber>,
    nextId: nat, nextEntry: nat, rule: Option<int>, refcnt: nat)

  function EmptyTopic(rule: Option<int>): Topic {
    Topic([], map[], map[], 0, 0, rule, 1)
  }

  // ---------- Named entry predicates, passed to Filter ----------

  function OwnedBy(p: int): Entry -> bool {
    (e: Entry) => e.publisher == p
  }

  function Unreferenced(): Entry -> bool {
    (e: Entry) => e.refs == {}
  }

  function NotAmong(victims: seq<Entry>): Entry -> bool {
    (e: Entry) => e !in victims
  }

  function Count(es: seq<Entry>, p: int): nat {
    |Filter(es, OwnedBy(p))|
  }

  predicate Ascending(es: seq<Entry>) {
    forall i, j :: 0 <= i < j < |es| ==> es[i].id < es[j].id
  }

  // ---------- Delivery ----------

  predicate DeliveryAllowed(rules: map<int, Rule>, rule: Option<int>,
                            pubDomain: nat, pubIsBridge: bool, subDomain: nat, subIsBridge: bool)
  {
    if pubDomain == subDomain then true
    else if pubIsBridge || subIsBridge then false
    else if rule.None? || rule.value !in rules then false
    else
      var r := rules[rule.value];
      if pubDomain == r.domainA && subDomain == r.domainB then r.aToB
      else if pubDomain == r.domainB && subDomain == r.domainA then r.bToA
      else false
  }

  predicate Allows(rules: map<int, Rule>, rule: Option<int>, p: Publisher, q: Subscriber) {
    DeliveryAllowed(rules, rule, p.domain, p.isBridge, q.domain, q.isBridge)
  }

  /** Whether subscriber `q` may be handed entry `e`. */
  predicate Deliverable(w: World, t: Topic, q: Subscriber, e: Entry) {
    && e.publisher in t.pubs
    && var p := t.pubs[e.publisher];
       && !Dead(w.procs, p.pid)
       && !(q.ignoreLocal && q.pid == p.pid)
       && Allows(w.rules, t.rule, p, q)
  }

  function Wanted(w: World, t: Topic, q: Subscriber, floor: int): Entry -> bool {
    (e: Entry) => floor <= e.id && Deliverable(w, t, q, e)
  }

  /** The newest `depth` deliverable entries with id at least `floor`, oldest first. */
  function Newest(w: World, t: Topic, q: Subscriber, floor: int): seq<Entry> {
    var d := Filter(t.entries, Wanted(w, t, q, floor));
    d[|d| - Min(q.depth, |d|)..]
  }

  /** What a subscriber has coming: its deliverable entries beyond the last received, within its depth. */
  function Window(w: World, t: Topic, q: Subscriber): seq<Entry> {
    Newest(w, t, q, q.latest + 1)
  }

  /** One receive hands out the oldest MAX_RECEIVE_NUM entries of the window. */
  function Batch(w: World, t: Topic, q: Subscriber): seq<Entry> {
    var window := Window(w, t, q);
    window[..Min(MAX_RECEIVE_NUM, |window|)]
  }

  function IdsOf(batch: seq<Entry>): seq<int> {
    seq(|batch|, i requires 0 <= i < |batch| => batch[i].id)
  }

  function AddrsOf(batch: seq<Entry>): seq<int> {
    seq(|batch|, i requires 0 <= i < |batch| => batch[i].addr)
  }

  function Marked(es: seq<Entry>, batch: seq<Entry>, s: int): seq<Entry> {
    seq(|es|, i requires 0 <= i < |es| =>
      if es[i] in batch then es[i].(refs := es[i].refs + {s}) else es[i])
  }

  /** The store after subscriber `s` was handed `batch`. */
  function HandedOut(t: Topic, s: int, batch: seq<Entry>): Topic
    requires s in t.subs
  {
    if batch == [] then t
    else t.(entries := Marked(t.entries, batch, s),
            subs := t.subs[s := t.subs[s].(latest := batch[|batch| - 1].id)])
  }

  function Receive(w: World, t: Topic, s: int): Topic
    requires s in t.subs
  {
    HandedOut(t, s, Batch(w, t, t.subs[s]))
  }

  /** Taking the same message again lowers the floor to the last received entry itself. */
  function TakeFloor(q: Subscriber, allowSame: bool): int {
    if allowSame then q.latest else q.latest + 1
  }

  function TakeCandidate(w: World, t: Topic, q: Subscriber, allowSame: bool): seq<Entry> {
    var newest := Newest(w, t, q, TakeFloor(q, allowSame));
    newest[..Min(1, |newest|)]
  }

  function Take(w: World, t: Topic, s: int, allowSame: bool): Topic
    requires s in t.subs
  {
    HandedOut(t, s, TakeCandidate(w, t, t.subs[s], allowSame))
  }

  // ---------- Releasing a reference ----------

  predicate Holds(t: Topic, s: int, id: int) {
    exists i :: 0 <= i < |t.entries| && t.entries[i].id == id && s in t.entries[i].refs
  }

  function Unmarked(es: seq<Entry>, id: int, s: int): seq<Entry> {
    seq(|es|, i requires 0 <= i < |es| =>
      if es[i].id == id then es[i].(refs := es[i].refs - {s}) else es[i])
  }

  /** Clears the bit, or changes nothing and fails when the bit is not set. */
  function Release(t: Topic, s: int, id: int): (Topic, Result<()>) {
    if 0 <= s < MAX_TOPIC_LOCAL_ID && Holds(t, s, id)
    then (t.(entries := Unmarked(t.entries, id, s)), Ok(()))
    else (t, Err(EINVAL))
  }

  // ---------- Publishing ----------

  function Inserted(t: Topic, p: int, addr: int): Topic
    requires p in t.pubs
  {
    t.(entries := t.entries + [Entry(t.nextEntry, p, addr, {})],
       pubs := t.pubs[p := t.pubs[p].(entriesNum := t.pubs[p].entriesNum + 1)],
       nextEntry := t.nextEntry + 1)
  }

  /** The publisher's entries beyond its depth, oldest first. The newest one never counts as excess. */
  function Excess(t: Topic, p: int): seq<Entry>
    requires p in t.pubs
  {
    var own := Filter(t.entries, OwnedBy(p));
    own[..Max(0, |own| - Max(1, t.pubs[p].depth))]
  }

  /** What one publish reclaims: the first MAX_RELEASE_NUM unreferenced excess entries. */
  function Reclaimable(t: Topic, p: int): seq<Entry>
    requires p in t.pubs
  {
    var free := Filter(Excess(t, p), Unreferenced());
    free[..Min(MAX_RELEASE_NUM, |free|)]
  }

  function Without(t: Topic, p: int, victims: seq<Entry>): Topic
    requires p in t.pubs
  {
    t.(entries := Filter(t.entries, NotAmong(victims)),
       pubs := t.pubs[p := t.pubs[p].(entriesNum := Max(0, t.pubs[p].entriesNum - |victims|))])
  }

  function Published(t: Topic, p: int, addr: int): Topic
    requires p in t.pubs
  {
    var t1 := Inserted(t, p, addr);
    Without(t1, p, Reclaimable(t1, p))
  }

  /** With depth 0 the walk runs off the newest entry unless it already filled its quota. */
  predicate WalkRunsOff(t1: Topic, p: int)
    requires p in t1.pubs
  {
    t1.pubs[p].depth == 0 && |Reclaimable(t1, p)| < MAX_RELEASE_NUM
  }

  // ---------- Joining ----------

  /** Where an allocation fails while an endpoint joins. */
  datatype Fault = NoFault | AllocFault | ReserveFault

  datatype SubArgs = SubArgs(
    pid: int, depth: nat, transientLocal: bool, ignoreLocal: bool, isBridge: bool, ctx: Option<int>)

  datatype PubArgs = PubArgs(pid: int, depth: nat, isBridge: bool)

  function NewSubscriber(t: Topic, domain: nat, a: SubArgs): Subscriber {
    Subscriber(domain, a.pid, a.depth, if a.transientLocal then -1 else t.nextEntry,
               a.ignoreLocal, true, a.isBridge, a.ctx)
  }

  /** A volatile subscriber burns one entry id, so that everything older is already "received". */
  function AddSubscriber(t: Topic, domain: nat, a: SubArgs, fault: Fault): (Topic, Result<int>) {
    if |t.subs| == MAX_SUBSCRIBER_NUM then (t, Err(ENOBUFS))
    else if t.nextId >= MAX_TOPIC_LOCAL_ID then (t, Err(ENOSPC))
    else if fault.AllocFault? || (fault.ReserveFault? && a.ctx.Some?) then (t, Err(ENOMEM))
    else
      (t.(nextId := t.nextId + 1,
          nextEntry := if a.transientLocal then t.nextEntry else t.nextEntry + 1,
          subs := t.subs[t.nextId := NewSubscriber(t, domain, a)]),
       Ok(t.nextId))
  }

  function AllNeedMmap(subs: map<int, Subscriber>): map<int, Subscriber> {
    map s | s in subs :: subs[s].(needMmap := true)
  }

  /** A failed reservation has already consumed the id. */
  function AddPublisher(t: Topic, domain: nat, a: PubArgs, fault: Fault): (Topic, Result<int>) {
    if |t.pubs| == MAX_PUBLISHER_NUM then (t, Err(ENOBUFS))
    else if t.nextId >= MAX_TOPIC_LOCAL_ID then (t, Err(ENOSPC))
    else if fault.AllocFault? then (t, Err(ENOMEM))
    else if fault.ReserveFault? then (t.(nextId := t.nextId + 1), Err(ENOMEM))
    else
      (t.(nextId := t.nextId + 1,
          pubs := t.pubs[t.nextId := Publisher(domain, a.pid, a.depth, a.isBridge, 0)],
          subs := AllNeedMmap(t.subs)),
       Ok(t.nextId))
  }

  // ---------- Leaving ----------

  function Cleared(es: seq<Entry>, gone: set<int>): seq<Entry> {
    seq(|es|, i requires 0 <= i < |es| => es[i].(refs := es[i].refs - gone))
  }

  function Survives(doomed: set<int>): Entry -> bool {
    (e: Entry) => !(e.refs == {} && e.publisher in doomed)
  }

  function Swept(es: seq<Entry>, gone: set<int>, doomed: set<int>): seq<Entry> {
    Filter(Cleared(es, gone), Survives(doomed))
  }

  /** The publishers with recounted entries; a doomed one that owns none is dropped. */
  function Recounted(pubs: map<int, Publisher>, doomed: set<int>, es: seq<Entry>): map<int, Publisher> {
    map p | p in pubs && !(p in doomed && Count(es, p) == 0) :: pubs[p].(entriesNum := Count(es, p))
  }

  /** Every departure: forget the bits of `gone` subscribers, drop what `doomed` publishers own unreferenced. */
  function Sweep(t: Topic, gone: set<int>, doomed: set<int>): Topic {
    var es := Swept(t.entries, gone, doomed);
    t.(entries := es, pubs := Recounted(t.pubs, doomed, es), subs := t.subs - gone)
  }

  function DeadPublishers(procs: map<int, Process>, t: Topic): set<int> {
    set p | p in t.pubs && Dead(procs, t.pubs[p].pid)
  }

  function PublishersOf(t: Topic, pid: int): set<int> {
    set p | p in t.pubs && t.pubs[p].pid == pid
  }

  function SubscribersOf(t: Topic, pid: int): set<int> {
    set s | s in t.subs && t.subs[s].pid == pid
  }

  function RemoveSubscriber(procs: map<int, Process>, t: Topic, s: int): Topic {
    Sweep(t, {s}, DeadPublishers(procs, t))
  }

  function RemovePublisher(t: Topic, p: int): Topic {
    Sweep(t, {}, {p})
  }

  /** Process exit: only a departing subscriber triggers the sweep over all dead publishers. */
  function Exit(procs: map<int, Process>, t: Topic, pid: int): Topic {
    var gone := SubscribersOf(t, pid);
    Sweep(t, gone, if gone == {} then PublishersOf(t, pid) else DeadPublishers(procs, t))
  }

  predicate HasDomainEndpoint(t: Topic, domain: nat) {
    || (exists p :: p in t.pubs && t.pubs[p].domain == domain)
    || (exists s :: s in t.subs && t.subs[s].domain == domain)
  }

  // ---------- The store invariant ----------

  ghost predicate EntriesOk(t: Topic) {
    && Ascending(t.entries)
    && (forall e :: e in t.entries ==> 0 <= e.id < t.nextEntry && e.publisher in t.pubs)
  }

  ghost predicate CountsOk(t: Topic) {
    forall p :: p in t.pubs ==> t.pubs[p].entriesNum == Count(t.entries, p)
  }

  /** Every holder of `e` is a present subscriber that has received up to `e` at least. */
  ghost predicate HoldersOk(subs: map<int, Subscriber>, e: Entry) {
    forall s :: s in e.refs ==> s in subs && e.id <= subs[s].latest
  }

  ghost predicate RefsOk(t: Topic) {
    forall e :: e in t.entries ==> HoldersOk(t.subs, e)
  }

  ghost predicate IdsOk(t: Topic) {
    && t.nextId <= MAX_TOPIC_LOCAL_ID
    && (forall p :: p in t.pubs ==> 0 <= p < t.nextId && p !in t.subs)
    && (forall s :: s in t.subs ==> 0 <= s < t.nextId && -1 <= t.subs[s].latest < t.nextEntry)
    && |t.subs| <= MAX_SUBSCRIBER_NUM
    && |t.pubs| <= MAX_PUBLISHER_NUM
  }

  ghost predicate Consistent(t: Topic) {
    EntriesOk(t) && CountsOk(t) && RefsOk(t) && IdsOk(t)
  }

  /** Dead publishers linger only while they own an entry, and never without a subscriber. */
  ghost predicate NoStaleDead(procs: map<int, Process>, t: Topic) {
    && (forall p :: p in t.pubs && Dead(procs, t.pubs[p].pid) ==> t.pubs[p].entriesNum > 0)
    && (t.subs == map[] ==> DeadPublishers(procs, t) == {})
  }
}
