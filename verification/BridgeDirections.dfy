// Which messages cross from one domain to another: exactly those of declared directions.

module BridgeDirections {
  import opened Base
  import opened TopicModel
  import opened DomainRules
  import opened Mempools
  import opened KernelModel
  import opened KernelInvariant
  import opened ProcessInvariant
  import opened Reclamation

  // ---------- What is declared ----------

  /** The registration names the direction from cell `c` to cell `d`, or covers it with its prefix. */
  predicate Declares(op: Op, c: Cell, d: Cell) {
    match op
    case AddBridge(ns, nameFrom, nameTo, from, to, _) => c == Cell(ns, nameFrom, from) && d == Cell(ns, nameTo, to)
    case AddBridgePrefix(ns, prefix, from, to, _) =>
      c.ns == ns == d.ns && c.domain == from && d.domain == to && c.name == d.name && prefix <= c.name
    case _ => false
  }

  ghost predicate Accepted(s: State, op: Op) {
    Step(s, op).1 == Plain(Ok(0))
  }

  /** One of the first `n` calls of the run has declared the direction and was accepted. */
  ghost predicate Declared(states: seq<State>, ops: seq<Op>, n: nat, c: Cell, d: Cell)
    requires n <= |ops| && n <= |states|
  {
    exists i :: 0 <= i < n && Declares(ops[i], c, d) && Accepted(states[i], ops[i])
  }

  // ---------- What the rules permit ----------

  predicate RulePermits(r: Rule, c: Cell, d: Cell) {
    && Matches(r, c) && Matches(r, d) && c.domain != d.domain
    && (r.isPrefix ==> c.name == d.name)
    && if c.domain == r.domainA then r.aToB else r.bToA
  }

  ghost predicate Permits(rules: map<int, Rule>, c: Cell, d: Cell) {
    exists i :: i in rules && RulePermits(rules[i], c, d)
  }

  lemma NewRulePermits(ns: int, nameFrom: string, nameTo: string, from: nat, to: nat, isPrefix: bool, c: Cell, d: Cell)
    requires from != to && (isPrefix ==> nameFrom == nameTo)
    ensures RulePermits(NewRule(ns, nameFrom, nameTo, from, to, isPrefix), c, d) <==>
      && c.ns == ns == d.ns && c.domain == from && d.domain == to
      && if isPrefix then c.name == d.name && nameFrom <= c.name else c.name == nameFrom && d.name == nameTo
  {
  }

  /** Enabling a direction of an exact rule permits that one pair more; of a prefix rule, one for each name. */
  lemma EnabledPermits(r: Rule, from: nat, to: nat, c: Cell, d: Cell)
    requires Canonical(r) && r.domainA == Min(from, to) && r.domainB == Max(from, to)
    ensures RulePermits(Enabled(r, from, to), c, d) <==>
      RulePermits(r, c, d) ||
      (Matches(r, c) && Matches(r, d) && c.domain == from && d.domain == to && (r.isPrefix ==> c.name == d.name))
  {
  }

  lemma PermitsReplaced(rules: map<int, Rule>, i: int, r: Rule, c: Cell, d: Cell)
    requires i in rules
    ensures Permits(rules[i := r], c, d) <==>
      RulePermits(r, c, d) || exists j :: j in rules && j != i && RulePermits(rules[j], c, d)
  {
    hide RulePermits;
    var after := rules[i := r];
    if RulePermits(r, c, d) {
      assert i in after && RulePermits(after[i], c, d);
    }
    if j :| j in rules && j != i && RulePermits(rules[j], c, d) {
      assert j in after && RulePermits(after[j], c, d);
    }
  }

  lemma PermitsInserted(rules: map<int, Rule>, i: int, r: Rule, c: Cell, d: Cell)
    requires i !in rules
    ensures Permits(rules[i := r], c, d) <==> RulePermits(r, c, d) || Permits(rules, c, d)
  {
    hide RulePermits;
    var after := rules[i := r];
    if RulePermits(r, c, d) {
      assert i in after && RulePermits(after[i], c, d);
    }
    if j :| j in rules && RulePermits(rules[j], c, d) {
      assert j in after && RulePermits(after[j], c, d);
    }
  }

  lemma PermitsSplit(rules: map<int, Rule>, i: int, c: Cell, d: Cell)
    requires i in rules
    ensures Permits(rules, c, d) <==>
      RulePermits(rules[i], c, d) || exists j :: j in rules && j != i && RulePermits(rules[j], c, d)
  {
    hide RulePermits;
  }

  lemma EnabledInTable(rules: map<int, Rule>, i: int, from: nat, to: nat, c: Cell, d: Cell)
    requires i in rules && Canonical(rules[i])
    requires rules[i].domainA == Min(from, to) && rules[i].domainB == Max(from, to)
    ensures var r := rules[i];
      Permits(rules[i := Enabled(r, from, to)], c, d) <==>
      Permits(rules, c, d) ||
      (Matches(r, c) && Matches(r, d) && c.domain == from && d.domain == to && (r.isPrefix ==> c.name == d.name))
  {
    hide RulePermits, Permits, Enabled;
    PermitsReplaced(rules, i, Enabled(rules[i], from, to), c, d);
    PermitsSplit(rules, i, c, d);
    EnabledPermits(rules[i], from, to, c, d);
  }

  // ---------- A registration adds the direction it declares ----------

  /** The exact rule that covers two cells of different domains covers nothing else. */
  lemma ExactPair(rules: map<int, Rule>, i: int, a: Cell, b: Cell)
    requires Disjoint(rules) && i in rules && !rules[i].isPrefix && a.domain != b.domain
    requires Matches(rules[i], a) && Matches(rules[i], b)
    ensures rules[i].domainA == Min(a.domain, b.domain) && rules[i].domainB == Max(a.domain, b.domain)
    ensures forall c :: Matches(rules[i], c) <==> c == a || c == b
  {
    hide Find;
    assert Canonical(rules[i]);
  }

  lemma AddExactPermits(rules: map<int, Rule>, occupied: set<Cell>, next: int, ns: int,
                        nameFrom: string, nameTo: string, from: nat, to: nat, allocOk: bool, c: Cell, d: Cell)
    requires Disjoint(rules) && next !in rules
    ensures var (after, r) := AddExact(rules, occupied, next, ns, nameFrom, nameTo, from, to, allocOk);
      Permits(after, c, d) <==>
      Permits(rules, c, d) || (r.Ok? && c == Cell(ns, nameFrom, from) && d == Cell(ns, nameTo, to))
  {
    hide Permits, RulePermits, Disjoint, Find, Enabled, NewRule, Matches;
    var a, b := Cell(ns, nameFrom, from), Cell(ns, nameTo, to);
    var (after, r) := AddExact(rules, occupied, next, ns, nameFrom, nameTo, from, to, allocOk);
    if r.Ok? {
      if Find(rules, a).Some? {
        var i := Find(rules, a).value;
        FindIs(rules, a, i);
        FindIs(rules, b, i);
        ExactPair(rules, i, a, b);
        CanonicalRule(rules, i);
        EnabledInTable(rules, i, from, to, c, d);
        if Enables(rules[i], from, to) {
          EnablesPermits(rules, i, a, b);
        }
      } else {
        NewRulePermits(ns, nameFrom, nameTo, from, to, false, c, d);
        PermitsInserted(rules, next, NewRule(ns, nameFrom, nameTo, from, to, false), c, d);
      }
    }
  }

  lemma CanonicalRule(rules: map<int, Rule>, i: int)
    requires Disjoint(rules) && i in rules
    ensures Canonical(rules[i])
  {
  }

  lemma EnablesPermits(rules: map<int, Rule>, i: int, c: Cell, d: Cell)
    requires i in rules && Matches(rules[i], c) && Matches(rules[i], d) && c.domain != d.domain
    requires rules[i].domainA == Min(c.domain, d.domain) && Enables(rules[i], c.domain, d.domain)
    requires rules[i].isPrefix ==> c.name == d.name
    ensures Permits(rules, c, d)
  {
    assert RulePermits(rules[i], c, d);
  }

  lemma AddPrefixPermits(rules: map<int, Rule>, occupied: set<Cell>, next: int, ns: int,
                         prefix: string, from: nat, to: nat, allocOk: bool, c: Cell, d: Cell)
    requires Disjoint(rules) && next !in rules
    ensures var (after, r) := AddPrefix(rules, occupied, next, ns, prefix, from, to, allocOk);
      var named := c.ns == ns == d.ns && c.domain == from && d.domain == to && c.name == d.name && prefix <= c.name;
      Permits(after, c, d) <==> Permits(rules, c, d) || (r.Ok? && named)
  {
    hide Permits, RulePermits, Disjoint, Enabled, NewRule, Conflicts, UnderPrefix;
    var a, b := Min(from, to), Max(from, to);
    var (after, r) := AddPrefix(rules, occupied, next, ns, prefix, from, to, allocOk);
    if r.Ok? {
      if exists i :: i in rules && SamePrefix(rules[i], ns, prefix, a, b) {
        var i :| i in rules && SamePrefix(rules[i], ns, prefix, a, b)
          && after == if Enables(rules[i], from, to) then rules else rules[i := Enabled(rules[i], from, to)];
        CanonicalRule(rules, i);
        SameNames(rules[i], ns, prefix, a, b);
        EnabledInTable(rules, i, from, to, c, d);
        if Enables(rules[i], from, to) && c.ns == ns == d.ns && c.domain == from && d.domain == to
          && c.name == d.name && prefix <= c.name {
          EnablesPermits(rules, i, c, d);
        }
      } else {
        NewRulePermits(ns, prefix, prefix, from, to, true, c, d);
        PermitsInserted(rules, next, NewRule(ns, prefix, prefix, from, to, true), c, d);
      }
    }
  }

  lemma SameNames(r: Rule, ns: int, prefix: string, a: nat, b: nat)
    requires SamePrefix(r, ns, prefix, a, b)
    ensures r.nameA == prefix
  {
  }

  /** After any step a direction is permitted exactly if it was, or the step has declared it and was accepted. */
  lemma StepPermits(s: State, op: Op, c: Cell, d: Cell)
    requires Inv(s)
    ensures Permits(Step(s, op).0.rules, c, d) <==>
      Permits(s.rules, c, d) || (Declares(op, c, d) && Accepted(s, op))
  {
    hide Inv, Permits, AddExact, AddPrefix, DoJoinSubscriber, DoJoinPublisher, DoPublish, DoReceive, DoTake, DoRelease,
         DoLeaveSubscriber, DoLeavePublisher, DoExit, DoAddProcess, DoCheckBridgeShutdown, DoAddAgent,
         DoAgentShouldExit, DoCommitExit;
    RulesFacts(s);
    match op {
      case AddBridge(ns, nf, nt, f, t, ok) =>
        AddExactPermits(s.rules, s.wrappers.Keys, s.nextRule, ns, nf, nt, f, t, ok, c, d);
      case AddBridgePrefix(ns, p, f, t, ok) =>
        AddPrefixPermits(s.rules, s.wrappers.Keys, s.nextRule, ns, p, f, t, ok, c, d);
      case _ =>
        hide Step, Accepted;
        OtherStepsKeepRules(s, op);
    }
  }

  /** In every state of a run the rules permit exactly the directions declared so far. */
  lemma {:induction false} RunPermits(states: seq<State>, ops: seq<Op>, n: nat, c: Cell, d: Cell)
    requires Run(states, ops) && n < |states|
    ensures Permits(states[n].rules, c, d) <==> Declared(states, ops, n, c, d)
  {
    hide Inv, Init, Allowed, Step, Permits, Declares, Accepted;
    if n == 0 {
      assert !Permits(states[0].rules, c, d) by { NoRulesYet(states[0], c, d); }
    } else {
      RunPermits(states, ops, n - 1, c, d);
      RunKeeps(states, ops, n - 1);
      assert states[(n - 1) + 1] == Step(states[n - 1], ops[n - 1]).0;
      StepPermits(states[n - 1], ops[n - 1], c, d);
      OneCallMore(states, ops, n, c, d);
    }
  }

  lemma OneCallMore(states: seq<State>, ops: seq<Op>, n: nat, c: Cell, d: Cell)
    requires 0 < n <= |ops| && n <= |states|
    ensures Declared(states, ops, n, c, d) <==>
      Declared(states, ops, n - 1, c, d) || (Declares(ops[n - 1], c, d) && Accepted(states[n - 1], ops[n - 1]))
  {
    hide Declares, Accepted;
  }

  lemma NoRulesYet(s: State, c: Cell, d: Cell)
    requires Init(s)
    ensures !Permits(s.rules, c, d)
  {
  }

  // ---------- Which registrations are accepted ----------

  ghost predicate Covered(rules: map<int, Rule>, c: Cell) {
    exists i :: i in rules && Matches(rules[i], c)
  }

  /** An exact rule covers both cells. */
  ghost predicate Paired(rules: map<int, Rule>, a: Cell, b: Cell) {
    exists i :: i in rules && !rules[i].isPrefix && Matches(rules[i], a) && Matches(rules[i], b)
  }

  ghost predicate CoversAll(r: Rule, ns: int, prefix: string, from: nat, to: nat) {
    forall c :: Matches(r, c) <==> UnderPrefix(c, ns, prefix, from, to)
  }

  /** A prefix rule covers exactly the cells under the prefix in the two domains. */
  ghost predicate PairedUnder(rules: map<int, Rule>, ns: int, prefix: string, from: nat, to: nat) {
    exists i :: i in rules && rules[i].isPrefix && CoversAll(rules[i], ns, prefix, from, to)
  }

  /**
    An exact registration succeeds on a pair already declared in this direction, or on a pair no
    endpoint has joined that is declared the other way, or free and stored.
   */
  lemma ExactAnswer(s: State, op: Op)
    requires Inv(s) && op.AddBridge?
    ensures var a, b := Cell(op.ns, op.nameFrom, op.from), Cell(op.ns, op.nameTo, op.to);
      var r := Step(s, op).1.result;
      var joined := a in s.wrappers || b in s.wrappers;
      var free := !Covered(s.rules, a) && !Covered(s.rules, b);
      var possible := if Paired(s.rules, a, b) then Permits(s.rules, a, b) || !joined
        else free && !joined && op.allocOk;
      var error := if op.from == op.to then EINVAL else if free && !joined then ENOMEM else EBUSY;
      (r.Ok? <==> op.from != op.to && possible) && (r.Err? ==> r.error == error)
  {
    hide Inv, Disjoint, Find, Matches, Enabled, NewRule, DoJoinSubscriber, DoJoinPublisher, DoPublish, DoReceive,
         DoTake, DoRelease, DoLeaveSubscriber, DoLeavePublisher, DoExit, DoAddProcess, DoCheckBridgeShutdown,
         DoAddAgent, DoAgentShouldExit, DoCommitExit;
    var a, b := Cell(op.ns, op.nameFrom, op.from), Cell(op.ns, op.nameTo, op.to);
    RulesFacts(s);
    FindNothing(s.rules, a);
    FindNothing(s.rules, b);
    if op.from != op.to {
      PairFound(s.rules, a, b);
    }
  }

  /** The lookups of two cells of different domains find an exact rule for both exactly if they are paired. */
  lemma PairFound(rules: map<int, Rule>, a: Cell, b: Cell)
    requires Disjoint(rules) && a.domain != b.domain
    ensures Paired(rules, a, b) <==>
      Find(rules, a).Some? && Find(rules, a) == Find(rules, b) && !rules[Find(rules, a).value].isPrefix
    ensures Find(rules, a).Some? ==> Find(rules, a).value in rules
    ensures Paired(rules, a, b) ==>
      (Enables(rules[Find(rules, a).value], a.domain, b.domain) <==> Permits(rules, a, b))
  {
    hide Disjoint, Find, Matches;
    if Find(rules, a).Some? {
      FindIs(rules, a, Find(rules, a).value);
      FindIs(rules, b, Find(rules, a).value);
    }
    if i :| i in rules && !rules[i].isPrefix && Matches(rules[i], a) && Matches(rules[i], b) {
      FindIs(rules, a, i);
      FindIs(rules, b, i);
      ExactPair(rules, i, a, b);
      forall j | j in rules && RulePermits(rules[j], a, b) ensures j == i {
        FindIs(rules, a, j);
      }
    }
  }

  /** A prefix registration succeeds likewise, over all the cells it covers. */
  lemma PrefixAnswer(s: State, op: Op)
    requires Inv(s) && op.AddBridgePrefix?
    ensures var r := Step(s, op).1.result;
      var joined := exists c :: c in s.wrappers && UnderPrefix(c, op.ns, op.prefix, op.from, op.to);
      var free := forall c :: UnderPrefix(c, op.ns, op.prefix, op.from, op.to) ==> !Covered(s.rules, c);
      var valid := op.from != op.to && |op.prefix| >= 2 && op.prefix[0] == '/';
      var possible := if PairedUnder(s.rules, op.ns, op.prefix, op.from, op.to)
        then Permits(s.rules, Cell(op.ns, op.prefix, op.from), Cell(op.ns, op.prefix, op.to)) || !joined
        else free && !joined && op.allocOk;
      var error := if !valid then EINVAL else if free && !joined then ENOMEM else EBUSY;
      (r.Ok? <==> valid && possible) && (r.Err? ==> r.error == error)
  {
    hide Inv, Disjoint, Matches, Enabled, NewRule, UnderPrefix, Conflicts, SamePrefix, DoJoinSubscriber,
         DoJoinPublisher, DoPublish, DoReceive, DoTake, DoRelease, DoLeaveSubscriber, DoLeavePublisher, DoExit,
         DoAddProcess, DoCheckBridgeShutdown, DoAddAgent, DoAgentShouldExit, DoCommitExit, Covered, PairedUnder,
         Permits;
    RulesFacts(s);
    if op.from != op.to {
      var a, b := Min(op.from, op.to), Max(op.from, op.to);
      SamePairsUnder(s.rules, op.ns, op.prefix, op.from, op.to);
      assert forall c :: c in s.wrappers.Keys <==> c in s.wrappers;
    }
  }

  /** What the scan for conflicts and the identical rule finds, in terms of the cells covered. */
  lemma SamePairsUnder(rules: map<int, Rule>, ns: int, prefix: string, from: nat, to: nat)
    requires Disjoint(rules) && from != to
    ensures var a, b := Min(from, to), Max(from, to);
      var same := exists i :: i in rules && SamePrefix(rules[i], ns, prefix, a, b);
      var conflict := exists i :: i in rules && Conflicts(rules[i], ns, prefix, a, b);
      && (same <==> PairedUnder(rules, ns, prefix, from, to))
      && (same ==> !conflict)
      && (same || conflict <==> exists c :: UnderPrefix(c, ns, prefix, from, to) && Covered(rules, c))
    ensures forall i :: i in rules && SamePrefix(rules[i], ns, prefix, Min(from, to), Max(from, to)) ==>
      (Enables(rules[i], from, to) <==> Permits(rules, Cell(ns, prefix, from), Cell(ns, prefix, to)))
  {
    hide Disjoint, Conflicts, NewRule, Permits, Enables;
    var a, b := Min(from, to), Max(from, to);
    forall i | i in rules
      ensures Conflicts(rules[i], ns, prefix, a, b) || SamePrefix(rules[i], ns, prefix, a, b) <==>
        exists c :: UnderPrefix(c, ns, prefix, from, to) && Matches(rules[i], c)
    {
      CanonicalRule(rules, i);
      ConflictIsOverlap(rules[i], ns, prefix, from, to);
      NewCoverage(ns, prefix, from, to);
    }
    forall i | i in rules && SamePrefix(rules[i], ns, prefix, a, b)
      ensures CoversAll(rules[i], ns, prefix, from, to)
      ensures forall j :: j in rules ==> !Conflicts(rules[j], ns, prefix, a, b)
      ensures Enables(rules[i], from, to) <==> Permits(rules, Cell(ns, prefix, from), Cell(ns, prefix, to))
    {
      SameCoverage(rules, i, ns, prefix, from, to);
    }
    if i :| i in rules && rules[i].isPrefix && CoversAll(rules[i], ns, prefix, from, to) {
      SameByCoverage(rules, i, ns, prefix, from, to);
    }
  }

  lemma NewCoverage(ns: int, prefix: string, from: nat, to: nat)
    requires from != to
    ensures CoversAll(NewRule(ns, prefix, prefix, from, to, true), ns, prefix, from, to)
  {
  }

  lemma SameCoverage(rules: map<int, Rule>, i: int, ns: int, prefix: string, from: nat, to: nat)
    requires Disjoint(rules) && from != to && i in rules
    requires SamePrefix(rules[i], ns, prefix, Min(from, to), Max(from, to))
    ensures CoversAll(rules[i], ns, prefix, from, to)
    ensures forall j :: j in rules ==> !Conflicts(rules[j], ns, prefix, Min(from, to), Max(from, to))
    ensures Enables(rules[i], from, to) <==> Permits(rules, Cell(ns, prefix, from), Cell(ns, prefix, to))
  {
    hide Disjoint, Conflicts;
    var a, b := Min(from, to), Max(from, to);
    CanonicalRule(rules, i);
    SameNames(rules[i], ns, prefix, a, b);
    forall j | j in rules ensures !Conflicts(rules[j], ns, prefix, a, b) {
      if Conflicts(rules[j], ns, prefix, a, b) {
        CanonicalRule(rules, j);
        ConflictIsOverlap(rules[j], ns, prefix, from, to);
        var c :| Matches(rules[j], c) && Matches(NewRule(ns, prefix, prefix, from, to, true), c);
        FindIs(rules, c, i);
        FindIs(rules, c, j);
        NotBoth(rules[j], ns, prefix, a, b);
      }
    }
    var c, d := Cell(ns, prefix, from), Cell(ns, prefix, to);
    forall j | j in rules && RulePermits(rules[j], c, d) ensures j == i {
      FindIs(rules, c, i);
      FindIs(rules, c, j);
    }
    if RulePermits(rules[i], c, d) {
      assert Permits(rules, c, d);
    }
  }

  lemma NotBoth(r: Rule, ns: int, prefix: string, a: nat, b: nat)
    ensures !(Conflicts(r, ns, prefix, a, b) && SamePrefix(r, ns, prefix, a, b))
  {
  }

  /** Covering the same cells means having the same prefix and the same domains. */
  lemma SameByCoverage(rules: map<int, Rule>, i: int, ns: int, prefix: string, from: nat, to: nat)
    requires Disjoint(rules) && from != to && i in rules && rules[i].isPrefix
    requires CoversAll(rules[i], ns, prefix, from, to)
    ensures SamePrefix(rules[i], ns, prefix, Min(from, to), Max(from, to))
  {
    hide Disjoint;
    CanonicalRule(rules, i);
    var r := rules[i];
    assert UnderPrefix(Cell(ns, prefix, from), ns, prefix, from, to);
    assert UnderPrefix(Cell(ns, prefix, to), ns, prefix, from, to);
    assert Matches(r, Cell(ns, prefix, from)) && Matches(r, Cell(ns, prefix, to));
    assert Matches(r, Cell(ns, r.nameA, from));
  }

  // ---------- Delivery follows the declarations ----------

  /** Cells `c` and `d` have wrappers on store `T`, for the two domains. */
  predicate CellsFor(s: State, T: int, c: Cell, d: Cell, from: nat, to: nat) {
    && c in s.wrappers && s.wrappers[c] == T && c.domain == from
    && d in s.wrappers && s.wrappers[d] == T && d.domain == to
  }

  lemma CachedRuleDecides(s: State, T: int, c: Cell, d: Cell)
    requires Inv(s) && T in s.topics && c.domain != d.domain && CellsFor(s, T, c, d, c.domain, d.domain)
    ensures DeliveryAllowed(s.rules, s.topics[T].rule, c.domain, false, d.domain, false) <==> Permits(s.rules, c, d)
  {
    hide StoresOk, LiveOk, MemoryOk, RegistryOk, RefcntsOk, Disjoint, Find;
    assert s.topics[T].rule == Find(s.rules, c) && Partner(s.rules, c) == Some(d);
    var i := Find(s.rules, c).value;
    FindIs(s.rules, c, i);
    CanonicalRule(s.rules, i);
    OtherSideMatches(s.rules[i], c);
    forall j | j in s.rules && RulePermits(s.rules[j], c, d) ensures j == i {
      FindIs(s.rules, c, j);
    }
  }

  /** Nothing but these conditions of its own stands between a message and a subscriber. */
  predicate Reachable(s: State, p: Publisher, q: Subscriber) {
    p.pid in s.procs && !s.procs[p.pid].exited && !(q.ignoreLocal && q.pid == p.pid)
  }

  /** Within a domain every message is deliverable. */
  lemma SameDomainDelivers(s: State, t: Topic, q: int, e: Entry)
    requires q in t.subs && e.publisher in t.pubs && t.pubs[e.publisher].domain == t.subs[q].domain
    ensures Deliverable(WorldOf(s), t, t.subs[q], e) <==> Reachable(s, t.pubs[e.publisher], t.subs[q])
  {
  }

  /**
    From one domain to another a message is deliverable exactly where neither endpoint is a bridge and an
    accepted registration has declared this direction for the cells of the two domains. Whether a
    registration was for the other direction makes no difference.
   */
  lemma CrossDomainDelivers(states: seq<State>, ops: seq<Op>, n: nat, T: int, q: int, e: Entry, c: Cell, d: Cell)
    requires Run(states, ops) && n < |states| && T in states[n].topics
    requires var t := states[n].topics[T];
      && q in t.subs && e.publisher in t.pubs && t.pubs[e.publisher].domain != t.subs[q].domain
      && CellsFor(states[n], T, c, d, t.pubs[e.publisher].domain, t.subs[q].domain)
    ensures var s, t := states[n], states[n].topics[T]; var p := t.pubs[e.publisher];
      Deliverable(WorldOf(s), t, t.subs[q], e) <==>
      && Reachable(s, p, t.subs[q]) && !p.isBridge && !t.subs[q].isBridge
      && Declared(states, ops, n, c, d)
  {
    hide Run, Inv, Declared, Permits;
    RunKeeps(states, ops, n);
    RunPermits(states, ops, n, c, d);
    CachedRuleDecides(states[n], T, c, d);
  }

  /** The two cells are there: every endpoint's domain has a wrapper on the store. */
  lemma EndpointCells(s: State, T: int, p: int, q: int) returns (c: Cell, d: Cell)
    requires Inv(s) && T in s.topics && p in s.topics[T].pubs && q in s.topics[T].subs
    ensures CellsFor(s, T, c, d, s.topics[T].pubs[p].domain, s.topics[T].subs[q].domain)
  {
    hide Inv, Consistent, NoStaleDead, EndpointsOk;
    StoreFacts(s, T);
    c :| c in CellsOf(s.wrappers, T) && c.domain == s.topics[T].pubs[p].domain;
    d :| d in CellsOf(s.wrappers, T) && d.domain == s.topics[T].subs[q].domain;
  }
}
