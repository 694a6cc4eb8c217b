// The ring of exited pids between the exit hook and the worker thread.
//
// Enqueuers and the worker touch the ring only under pid_queue_lock, so each critical section is one
// step, and any interleaving of them is a run of the protocol below.

module ExitQueues {
  import opened Base

  const EXIT_QUEUE_SIZE: nat := 0x1_0000

  /** One slot stays empty, to tell a full ring from an empty one. */
  const CAPACITY: nat := EXIT_QUEUE_SIZE - 1

  // ---------- What the ring stands for ----------

  /** The pending pids in order, and has_new_pid. */
  datatype Fifo = Fifo(pids: seq<int>, flag: bool)

  function Offer(q: Fifo, pid: int): (Fifo, bool) {
    if |q.pids| < CAPACITY then (Fifo(q.pids + [pid], true), true) else (q, false)
  }

  function Poll(q: Fifo): (Fifo, Option<int>) {
    if q.pids == [] then (Fifo([], false), None)
    else (Fifo(q.pids[1..], q.flag && |q.pids| > 1), Some(q.pids[0]))
  }

  lemma PollTakesFirst(q: Fifo)
    ensures match Poll(q).1
      case None => q.pids == [] && Poll(q).0 == Fifo([], false)
      case Some(pid) => q.pids == [pid] + Poll(q).0.pids
  {
  }

  // ---------- The ring ----------

  /** (i + 1) & EXIT_QUEUE_MASK. */
  function Next(i: nat): (n: nat)
    requires i < EXIT_QUEUE_SIZE
    ensures n < EXIT_QUEUE_SIZE && n != i
  {
    (i + 1) % EXIT_QUEUE_SIZE
  }

  function Distance(head: nat, tail: nat): nat
    requires head < EXIT_QUEUE_SIZE && tail < EXIT_QUEUE_SIZE
  {
    if head <= tail then tail - head else EXIT_QUEUE_SIZE - head + tail
  }

  function Slice(slots: seq<int>, head: nat, tail: nat): seq<int>
    requires |slots| == EXIT_QUEUE_SIZE && head < EXIT_QUEUE_SIZE && tail < EXIT_QUEUE_SIZE
  {
    if head <= tail then slots[head..tail] else slots[head..] + slots[..tail]
  }

  lemma SliceGrows(slots: seq<int>, head: nat, tail: nat, pid: int)
    requires |slots| == EXIT_QUEUE_SIZE && head < EXIT_QUEUE_SIZE && tail < EXIT_QUEUE_SIZE
    requires Next(tail) != head
    ensures Slice(slots[tail := pid], head, Next(tail)) == Slice(slots, head, tail) + [pid]
    ensures |Slice(slots, head, tail)| < CAPACITY
  {
  }

  lemma FirstOf(s: seq<int>, i: nat)
    requires i < |s|
    ensures s[i..] == [s[i]] + s[i + 1..]
  {
  }

  lemma Associative(x: int, a: seq<int>, b: seq<int>)
    ensures [x] + a + b == [x] + (a + b)
  {
  }

  lemma WrappedSliceShrinks(slots: seq<int>, head: nat, tail: nat)
    requires |slots| == EXIT_QUEUE_SIZE && tail < head < EXIT_QUEUE_SIZE
    ensures Slice(slots, head, tail) == [slots[head]] + Slice(slots, Next(head), tail)
  {
    if head + 1 == EXIT_QUEUE_SIZE {
      assert slots[head..] == [slots[head]] && slots[0..tail] == slots[..tail];
    } else {
      assert Slice(slots, Next(head), tail) == slots[head + 1..] + slots[..tail];
      FirstOf(slots, head);
      Associative(slots[head], slots[head + 1..], slots[..tail]);
    }
  }

  lemma StraightSliceShrinks(slots: seq<int>, head: nat, tail: nat)
    requires |slots| == EXIT_QUEUE_SIZE && head < tail < EXIT_QUEUE_SIZE
    ensures Slice(slots, head, tail) == [slots[head]] + Slice(slots, Next(head), tail)
  {
    assert Next(head) == head + 1;
    assert slots[head..tail] == [slots[head]] + slots[head + 1..tail];
  }

  lemma SliceShrinks(slots: seq<int>, head: nat, tail: nat)
    requires |slots| == EXIT_QUEUE_SIZE && head < EXIT_QUEUE_SIZE && tail < EXIT_QUEUE_SIZE
    requires head != tail
    ensures Slice(slots, head, tail) == [slots[head]] + Slice(slots, Next(head), tail)
  {
    hide Slice, Next;
    if head < tail {
      StraightSliceShrinks(slots, head, tail);
    } else {
      WrappedSliceShrinks(slots, head, tail);
    }
  }

  lemma SliceLength(slots: seq<int>, head: nat, tail: nat)
    requires |slots| == EXIT_QUEUE_SIZE && head < EXIT_QUEUE_SIZE && tail < EXIT_QUEUE_SIZE
    ensures |Slice(slots, head, tail)| == Distance(head, tail) <= CAPACITY
    ensures Slice(slots, head, tail) == [] <==> head == tail
    ensures |Slice(slots, head, tail)| == CAPACITY <==> Next(tail) == head
  {
  }

  class ExitQueue {
    const slots: array<int>
    var head: nat
    var tail: nat
    var hasNewPid: bool

    ghost predicate Valid()
      reads this
    {
      slots.Length == EXIT_QUEUE_SIZE && head < EXIT_QUEUE_SIZE && tail < EXIT_QUEUE_SIZE
    }

    ghost function View(): Fifo
      requires Valid()
      reads this, slots
    {
      Fifo(Slice(slots[..], head, tail), hasNewPid)
    }

    constructor ()
      ensures Valid() && fresh(slots) && View() == Fifo([], false)
    {
      slots := new int[EXIT_QUEUE_SIZE];
      head, tail, hasNewPid := 0, 0, false;
    }

    method Enqueue(pid: int) returns (needWakeup: bool)
      requires Valid()
      modifies this, slots
      ensures Valid() && View() == Offer(old(View()), pid).0 && needWakeup == Offer(old(View()), pid).1
    {
      hide Slice;
      SliceLength(slots[..], head, tail);
      needWakeup := false;
      var next := Next(tail);
      if next != head {
        SliceGrows(slots[..], head, tail, pid);
        slots[tail] := pid;
        assert slots[..] == old(slots[..])[tail := pid];
        tail := next;
        hasNewPid := true;
        needWakeup := true;
      }
    }

    /** One critical section of the worker. */
    method Dequeue() returns (got: Option<int>)
      requires Valid()
      modifies this`head, this`hasNewPid
      ensures Valid() && View() == Poll(old(View())).0 && got == Poll(old(View())).1
    {
      hide Slice;
      SliceLength(slots[..], head, tail);
      got := None;
      if head != tail {
        SliceShrinks(slots[..], head, tail);
        got := Some(slots[head]);
        head := Next(head);
      }
      SliceLength(slots[..], head, tail);
      if head == tail { hasNewPid := false; }
    }

    /** The inner loop of the worker when nobody enqueues meanwhile: it cleans up everything, in order. */
    method DrainAll() returns (cleaned: seq<int>)
      requires Valid()
      modifies this`head, this`hasNewPid
      ensures Valid() && View() == Fifo([], false) && cleaned == old(View()).pids
    {
      hide Slice, Poll;
      ghost var all := View().pids;
      cleaned := [];
      while true
        invariant Valid() && |cleaned| <= |all|
        invariant cleaned == all[..|cleaned|] && View().pids == all[|cleaned|..]
        decreases |all| - |cleaned|
      {
        PollTakesFirst(View());
        var pid := Dequeue();
        if pid.None? { break; }
        cleaned := cleaned + [pid.value];
      }
    }
  }

  // ---------- The protocol ----------

  /** Where the worker is: before its wait, before a critical section, holding a pid, or gone. */
  datatype Worker = Waiting | Draining | Cleaning(pid: int) | Stopped

  datatype Protocol = Protocol(
    queue: Fifo, worker: Worker, stopping: bool,
    accepted: seq<int>, refused: seq<int>, cleaned: seq<int>)

  datatype Action = Exit(pid: int) | RequestStop | Wake | PollQueue | Clean

  predicate Enabled(s: Protocol, a: Action) {
    match a
    case Exit(_) => true
    case RequestStop => true
    case Wake => s.worker.Waiting? && (s.queue.flag || s.stopping)
    case PollQueue => s.worker.Draining?
    case Clean => s.worker.Cleaning?
  }

  function Act(s: Protocol, a: Action): Protocol
    requires Enabled(s, a)
  {
    match a
    case Exit(pid) =>
      var (q, ok) := Offer(s.queue, pid);
      if ok then s.(queue := q, accepted := s.accepted + [pid]) else s.(refused := s.refused + [pid])
    case RequestStop => s.(stopping := true)
    case Wake => s.(worker := if s.stopping then Stopped else Draining)
    case PollQueue =>
      var (q, pid) := Poll(s.queue);
      s.(queue := q, worker := if pid.Some? then Cleaning(pid.value) else if s.stopping then Stopped else Waiting)
    case Clean => s.(worker := Draining, cleaned := s.cleaned + [s.worker.pid])
  }

  function Start(): Protocol {
    Protocol(Fifo([], false), Waiting, false, [], [], [])
  }

  ghost predicate Trace(states: seq<Protocol>, actions: seq<Action>) {
    && |states| == |actions| + 1 && states[0] == Start()
    && forall i :: 0 <= i < |actions| ==> Enabled(states[i], actions[i]) && states[i + 1] == Act(states[i], actions[i])
  }

  function InHand(w: Worker): seq<int> {
    if w.Cleaning? then [w.pid] else []
  }

  /** Accepted pids are consumed in order, none lost or repeated, and the flag tells an empty ring from a filled one. */
  predicate Faithful(s: Protocol) {
    && s.accepted == s.cleaned + InHand(s.worker) + s.queue.pids
    && |s.queue.pids| <= CAPACITY
    && (s.queue.flag <==> s.queue.pids != [])
    && (s.worker.Stopped? ==> s.stopping)
  }

  lemma ActKeepsFaithful(s: Protocol, a: Action)
    requires Faithful(s) && Enabled(s, a)
    ensures Faithful(Act(s, a))
  {
    var u := Act(s, a);
    match a {
      case Exit(pid) =>
        assert s.accepted + [pid] == s.cleaned + InHand(s.worker) + (s.queue.pids + [pid]);
      case PollQueue =>
        if s.queue.pids != [] {
          assert s.queue.pids == [s.queue.pids[0]] + s.queue.pids[1..];
        }
      case Clean =>
        assert u.cleaned + InHand(u.worker) == s.cleaned + InHand(s.worker);
      case _ =>
    }
  }

  /** Under any interleaving of exits and worker steps. */
  lemma {:induction false} TraceFaithful(states: seq<Protocol>, actions: seq<Action>, i: nat)
    requires Trace(states, actions) && i < |states|
    ensures Faithful(states[i])
  {
    hide Faithful, Act, Enabled;
    if i == 0 {
      StartFaithful();
    } else {
      TraceFaithful(states, actions, i - 1);
      ActKeepsFaithful(states[i - 1], actions[i - 1]);
    }
  }

  lemma StartFaithful()
    ensures Faithful(Start())
  {
  }

  /** A pid is refused only while CAPACITY accepted ones are waiting. */
  lemma RefusedOnlyWhenFull(s: Protocol, pid: int)
    requires Faithful(s)
    ensures var u := Act(s, Exit(pid));
      if u.refused == s.refused then u.accepted == s.accepted + [pid] && u.queue.flag
      else |s.accepted| - |s.cleaned| - |InHand(s.worker)| == CAPACITY && u.accepted == s.accepted
  {
  }

  /** The worker sleeps, unable to proceed, exactly when nothing is pending and no stop was requested. */
  lemma NeverSleepsOnPending(states: seq<Protocol>, actions: seq<Action>, i: nat)
    requires Trace(states, actions) && i < |states|
    requires !Enabled(states[i], Wake) && !Enabled(states[i], PollQueue) && !Enabled(states[i], Clean)
    ensures states[i].stopping || (states[i].worker.Waiting? && states[i].cleaned == states[i].accepted)
  {
    TraceFaithful(states, actions, i);
    var s := states[i];
    assert s.cleaned + [] + [] == s.cleaned;
  }

  // ---------- The worker makes progress ----------

  ghost predicate Leads(s: Protocol, plan: seq<Action>, u: Protocol)
    decreases |plan|
  {
    if plan == [] then u == s else Enabled(s, plan[0]) && Leads(Act(s, plan[0]), plan[1..], u)
  }

  /** Woken up and left alone, the worker empties the ring and goes back to sleep. */
  function DrainPlan(n: nat): seq<Action> {
    if n == 0 then [PollQueue] else [PollQueue, Clean] + DrainPlan(n - 1)
  }

  lemma {:induction false} DrainPlanCleansAll(s: Protocol)
    requires Faithful(s) && s.worker.Draining? && !s.stopping
    ensures Leads(s, DrainPlan(|s.queue.pids|),
                  s.(queue := Fifo([], false), worker := Waiting, cleaned := s.cleaned + s.queue.pids))
    decreases |s.queue.pids|
  {
    var n := |s.queue.pids|;
    var s1 := Act(s, PollQueue);
    if n == 0 {
      assert s.cleaned + s.queue.pids == s.cleaned;
      assert Leads(s1, [], s1);
      assert [PollQueue][1..] == [];
    } else {
      var s2 := Act(s1, Clean);
      ActKeepsFaithful(s, PollQueue);
      ActKeepsFaithful(s1, Clean);
      DrainPlanCleansAll(s2);
      assert s2.cleaned + s2.queue.pids == s.cleaned + s.queue.pids;
      var rest := DrainPlan(n - 1);
      assert DrainPlan(n)[1..] == [Clean] + rest;
      assert ([Clean] + rest)[1..] == rest;
    }
  }
}
