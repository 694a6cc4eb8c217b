// Receives, takes and releases that hold only the topic's read lock.
//
// Publishing, joining and leaving take a write lock, so while readers run the tree's shape, the
// endpoint tables and the process table stand still. What moves are the reference bits and each
// subscriber's own latest_received_entry_id. Every loop iteration of a receive or take is a step of
// its own; a release is one atomic test-and-clear. A take ends with one step: the atomic
// test-and-set, and the write of its subscriber's progress, which no other call reads.

module ConcurrentCalls {
  import opened Base
  import opened TopicModel

  // ---------- Concurrent calls, step by step ----------

  /** An entry as recorded in a reply: without its reference bits. */
  function Bare(e: Entry): Entry {
    e.(refs := {})
  }

  function BareAll(es: seq<Entry>): seq<Entry> {
    seq(|es|, i requires 0 <= i < |es| => Bare(es[i]))
  }

  /**
    Where a receive is: in its backward walk or its forward walk; where a take is: in its walk, or at
    its candidate (past the end of the tree if it found none); or given up with an error.
   */
  datatype Phase =
    | Backward(back: nat, node: nat, num: nat)
    | Forward(start: nat, num: nat, k: nat, handed: seq<Entry>)
    | Taking(same: bool, back: nat, node: nat, num: nat)
    | Chosen(same: bool, node: nat, num: nat)
    | Failed(error: Errno)

  /** At most one receive or take runs per subscriber; the library serializes those of one process. */
  datatype Config = Config(topic: Topic, jobs: map<int, Phase>)

  datatype Move =
    | Begin(s: int) | BeginTake(s: int, same: bool) | Advance(s: int)
    | Complete(s: int) | Claim(s: int) | ReleaseRef(s: int, id: int)

  predicate CanAdvance(c: Config, s: int) {
    && s in c.jobs && s in c.topic.subs
    && match c.jobs[s]
       case Backward(back, node, num) => back <= |c.topic.entries|
       case Forward(_, _, k, handed) => k < |c.topic.entries| && |handed| < MAX_RECEIVE_NUM
       case Taking(_, back, _, _) => back <= |c.topic.entries|
       case Chosen(_, _, _) => false
       case Failed(_) => false
  }

  predicate CanComplete(c: Config, s: int) {
    && s in c.jobs && s in c.topic.subs
    && c.jobs[s].Forward?
    && (c.jobs[s].k == |c.topic.entries| || |c.jobs[s].handed| == MAX_RECEIVE_NUM)
  }

  /** A subscriber releases what completed calls have handed to it. */
  predicate Possible(c: Config, m: Move) {
    match m
    case Begin(s) => s in c.topic.subs && s !in c.jobs
    case BeginTake(s, _) => s in c.topic.subs && s !in c.jobs
    case Advance(s) => CanAdvance(c, s)
    case Complete(s) => CanComplete(c, s)
    case Claim(s) => s in c.topic.subs && s in c.jobs && c.jobs[s].Chosen?
    case ReleaseRef(s, id) => s in c.topic.subs ==> id <= c.topic.subs[s].latest
  }

  function Started(t: Topic, q: Subscriber): Phase {
    if t.entries == [] || q.depth == 0 then Forward(|t.entries|, 0, |t.entries|, [])
    else Backward(|t.entries|, |t.entries|, 0)
  }

  function BackwardStep(w: World, t: Topic, q: Subscriber, back: nat, node: nat, num: nat): Phase
    requires back <= |t.entries|
  {
    if back == 0 || num >= q.depth || t.entries[back - 1].id < q.latest + 1 then Forward(node, num, node, [])
    else if t.entries[back - 1].publisher !in t.pubs then Failed(ENODATA)
    else if Deliverable(w, t, q, t.entries[back - 1]) then Backward(back - 1, back - 1, num + 1)
    else Backward(back - 1, node, num)
  }

  function TakeStep(w: World, t: Topic, q: Subscriber, same: bool, back: nat, node: nat, num: nat): Phase
    requires back <= |t.entries|
  {
    if back == 0 || num >= q.depth then Chosen(same, node, num)
    else
      var e := t.entries[back - 1];
      if !same && e.id == q.latest then Chosen(same, node, num)
      else if e.id < q.latest then Chosen(same, node, num)
      else if e.publisher !in t.pubs then Failed(ENODATA)
      else if Deliverable(w, t, q, e) then Taking(same, back - 1, back - 1, num + 1)
      else Taking(same, back - 1, node, num)
  }

  function SetBit(t: Topic, k: nat, s: int): Topic
    requires k < |t.entries|
  {
    t.(entries := t.entries[k := t.entries[k].(refs := t.entries[k].refs + {s})])
  }

  function ForwardStepOf(w: World, c: Config, s: int): Config
    requires CanAdvance(c, s) && c.jobs[s].Forward?
  {
    var j, t := c.jobs[s], c.topic;
    var e := t.entries[j.k];
    if e.publisher !in t.pubs then c.(jobs := c.jobs[s := Failed(ENODATA)])
    else if !Deliverable(w, t, t.subs[s], e) then c.(jobs := c.jobs[s := j.(k := j.k + 1)])
    else if s in e.refs then c.(jobs := c.jobs[s := Failed(EALREADY)])
    else Config(SetBit(t, j.k, s), c.jobs[s := j.(k := j.k + 1, handed := j.handed + [Bare(e)])])
  }

  /** A take that finds its subscriber's bit set goes on only if it may return the same message again. */
  predicate ClaimFails(c: Config, s: int)
    requires Possible(c, Claim(s))
  {
    var j := c.jobs[s];
    j.node < |c.topic.entries| && s in c.topic.entries[j.node].refs && !j.same
  }

  function Claimed(c: Config, s: int): Config
    requires Possible(c, Claim(s))
  {
    var j := c.jobs[s];
    if j.node >= |c.topic.entries| then c.(jobs := c.jobs - {s})
    else if ClaimFails(c, s) then c.(jobs := c.jobs[s := Failed(EALREADY)])
    else Config(Advanced(SetBit(c.topic, j.node, s), s, [c.topic.entries[j.node]]), c.jobs - {s})
  }

  function Do(w: World, c: Config, m: Move): Config
    requires Possible(c, m)
  {
    match m
    case Begin(s) => c.(jobs := c.jobs[s := Started(c.topic, c.topic.subs[s])])
    case BeginTake(s, same) =>
      c.(jobs := c.jobs[s := Taking(same, |c.topic.entries|, |c.topic.entries|, 0)])
    case Advance(s) =>
      var j := c.jobs[s];
      if j.Backward? then
        c.(jobs := c.jobs[s := BackwardStep(w, c.topic, c.topic.subs[s], j.back, j.node, j.num)])
      else if j.Taking? then
        c.(jobs := c.jobs[s := TakeStep(w, c.topic, c.topic.subs[s], j.same, j.back, j.node, j.num)])
      else ForwardStepOf(w, c, s)
    case Complete(s) => Config(Advanced(c.topic, s, c.jobs[s].handed), c.jobs - {s})
    case Claim(s) => Claimed(c, s)
    case ReleaseRef(s, id) => c.(topic := Release(c.topic, s, id).0)
  }

  /** The one write of a receive or take besides the bits. */
  function Advanced(t: Topic, s: int, handed: seq<Entry>): Topic
    requires s in t.subs
  {
    if handed == [] then t
    else t.(subs := t.subs[s := t.subs[s].(latest := handed[|handed| - 1].id)])
  }

  // ---------- What a call returns, and the serial calls ----------

  datatype Call = ReceiveCall(s: int) | TakeCall(s: int, same: bool) | ReleaseCall(s: int, id: int)

  datatype Outcome = Handed(ids: seq<int>, addrs: seq<int>, callAgain: bool) | Released(result: Result<()>)

  function SerialState(w: World, t: Topic, call: Call): Topic {
    match call
    case ReceiveCall(s) => if s in t.subs then Receive(w, t, s) else t
    case TakeCall(s, same) => if s in t.subs then Take(w, t, s, same) else t
    case ReleaseCall(s, id) => Release(t, s, id).0
  }

  function SerialOutcome(w: World, t: Topic, call: Call): Outcome {
    match call
    case ReceiveCall(s) =>
      if s in t.subs then
        var batch := Batch(w, t, t.subs[s]);
        Handed(IdsOf(batch), AddrsOf(batch), |Window(w, t, t.subs[s])| > MAX_RECEIVE_NUM)
      else Handed([], [], false)
    case TakeCall(s, same) =>
      if s in t.subs then
        var candidate := TakeCandidate(w, t, t.subs[s], same);
        Handed(IdsOf(candidate), AddrsOf(candidate), false)
      else Handed([], [], false)
    case ReleaseCall(s, id) => Released(Release(t, s, id).1)
  }

  /** The calls a step finishes, and what they return. */
  function Finished(w: World, c: Config, m: Move): seq<(Call, Outcome)>
    requires Possible(c, m)
  {
    match m
    case Complete(s) =>
      var j := c.jobs[s];
      [(ReceiveCall(s), Handed(IdsOf(j.handed), AddrsOf(j.handed), j.k < |c.topic.entries| && |j.handed| < j.num))]
    case Claim(s) =>
      var j := c.jobs[s];
      if ClaimFails(c, s) then []
      else
        var found := if j.node < |c.topic.entries| then [c.topic.entries[j.node]] else [];
        [(TakeCall(s, j.same), Handed(IdsOf(found), AddrsOf(found), false))]
    case ReleaseRef(s, id) => [(ReleaseCall(s, id), Released(Release(c.topic, s, id).1))]
    case _ => []
  }

  /** The serial execution of `calls` from `t` ends in `u` and returns exactly the recorded outcomes. */
  ghost predicate Serially(w: World, t: Topic, calls: seq<(Call, Outcome)>, u: Topic)
    decreases |calls|
  {
    if calls == [] then u == t
    else
      var n := |calls| - 1;
      exists v :: Serially(w, t, calls[..n], v) && calls[n].1 == SerialOutcome(w, v, calls[n].0)
                  && u == SerialState(w, v, calls[n].0)
  }
}
