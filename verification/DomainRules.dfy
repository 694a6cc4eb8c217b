// Domain bridge rules: which cells they cover, how registrations keep them disjoint, and the scans
// of the rule table.

module DomainRules {
  import opened Base
  import opened Sets
  import opened TopicModel

  /** What a rule is keyed by: a topic name in one ROS domain of one IPC namespace. */
  datatype Cell = Cell(ns: int, name: string, domain: nat)

  predicate Matches(r: Rule, c: Cell) {
    && r.ns == c.ns
    && (c.domain == r.domainA || c.domain == r.domainB)
    && if r.isPrefix then r.nameA <= c.name
       else (c.domain == r.domainA && r.nameA == c.name) || (c.domain == r.domainB && r.nameB == c.name)
  }

  ghost predicate Canonical(r: Rule) {
    r.domainA < r.domainB && (r.isPrefix ==> r.nameA == r.nameB)
  }

  /** No cell is covered twice. */
  ghost predicate Disjoint(rules: map<int, Rule>) {
    && (forall i :: i in rules ==> Canonical(rules[i]))
    && (forall i, j, c :: i in rules && j in rules && Matches(rules[i], c) && Matches(rules[j], c) ==> i == j)
  }

  ghost function Find(rules: map<int, Rule>, c: Cell): Option<int> {
    if exists i :: i in rules && Matches(rules[i], c)
    then var i :| i in rules && Matches(rules[i], c); Some(i)
    else None
  }

  lemma FindIs(rules: map<int, Rule>, c: Cell, i: int)
    requires Disjoint(rules)
    ensures Find(rules, c) == Some(i) <==> i in rules && Matches(rules[i], c)
  {
  }

  lemma FindNothing(rules: map<int, Rule>, c: Cell)
    ensures Find(rules, c) == None <==> forall i :: i in rules ==> !Matches(rules[i], c)
  {
  }

  // ---------- Partners ----------

  /** The other cell of the pair `c` belongs to under rule `r`; a prefix rule keeps the name. */
  function OtherSide(r: Rule, c: Cell): Cell {
    if c.domain == r.domainA then Cell(c.ns, if r.isPrefix then c.name else r.nameB, r.domainB)
    else Cell(c.ns, if r.isPrefix then c.name else r.nameA, r.domainA)
  }

  ghost function Partner(rules: map<int, Rule>, c: Cell): Option<Cell> {
    match Find(rules, c)
    case None => None
    case Some(i) => if i in rules then Some(OtherSide(rules[i], c)) else None
  }

  lemma OtherSideMatches(r: Rule, c: Cell)
    requires Canonical(r) && Matches(r, c)
    ensures Matches(r, OtherSide(r, c)) && OtherSide(r, c).domain != c.domain
    ensures OtherSide(r, OtherSide(r, c)) == c
  {
  }

  /** Pairing is an involution without fixed points, and both cells are found by the same rule. */
  lemma PartnerInvolution(rules: map<int, Rule>, c: Cell)
    requires Disjoint(rules) && Partner(rules, c).Some?
    ensures var d := Partner(rules, c).value;
      d != c && Partner(rules, d) == Some(c) && Find(rules, d) == Find(rules, c)
  {
    var i := Find(rules, c).value;
    OtherSideMatches(rules[i], c);
    FindIs(rules, OtherSide(rules[i], c), i);
  }

  /** An exact rule found from two cells of different domains pairs exactly these two. */
  lemma SameRuleIsThePair(rules: map<int, Rule>, a: Cell, b: Cell)
    requires Disjoint(rules) && a.domain != b.domain
    requires Find(rules, a).Some? && Find(rules, a) == Find(rules, b)
    requires !rules[Find(rules, a).value].isPrefix
    ensures Partner(rules, a) == Some(b)
    ensures forall c :: Matches(rules[Find(rules, a).value], c) <==> c == a || c == b
  {
    var i := Find(rules, a).value;
    FindIs(rules, a, i);
    FindIs(rules, b, i);
  }

  // ---------- Registration ----------

  function NewRule(ns: int, nameFrom: string, nameTo: string, from: nat, to: nat, isPrefix: bool): Rule {
    if from < to then Rule(ns, nameFrom, nameTo, from, to, true, false, isPrefix)
    else Rule(ns, nameTo, nameFrom, to, from, false, true, isPrefix)
  }

  /** Whether `r` already delivers from domain `from` to domain `to`. */
  predicate Enables(r: Rule, from: nat, to: nat) {
    if from < to then r.aToB else r.bToA
  }

  function Enabled(r: Rule, from: nat, to: nat): Rule {
    if from < to then r.(aToB := true) else r.(bToA := true)
  }

  /** `occupied` are the cells that have a topic wrapper, `next` is the address of the next allocated rule. */
  ghost function AddExact(rules: map<int, Rule>, occupied: set<Cell>, next: int, ns: int,
                          nameFrom: string, nameTo: string, from: nat, to: nat, allocOk: bool)
    : (map<int, Rule>, Result<()>)
  {
    var a, b := Cell(ns, nameFrom, from), Cell(ns, nameTo, to);
    var ra, rb := Find(rules, a), Find(rules, b);
    if from == to then (rules, Err(EINVAL))
    else if ra != rb then (rules, Err(EBUSY))
    else if ra.Some? && ra.value in rules then
      var r := rules[ra.value];
      if r.isPrefix then (rules, Err(EBUSY))
      else if Enables(r, from, to) then (rules, Ok(()))
      else if a in occupied || b in occupied then (rules, Err(EBUSY))
      else (rules[ra.value := Enabled(r, from, to)], Ok(()))
    else if a in occupied || b in occupied then (rules, Err(EBUSY))
    else if !allocOk then (rules, Err(ENOMEM))
    else (rules[next := NewRule(ns, nameFrom, nameTo, from, to, false)], Ok(()))
  }

  predicate SharesDomain(r: Rule, a: nat, b: nat) {
    r.domainA == a || r.domainA == b || r.domainB == a || r.domainB == b
  }

  predicate Nests(p: string, q: string) {
    if |p| <= |q| then p <= q else q <= p
  }

  /** The identical prefix rule, up to direction. */
  predicate SamePrefix(r: Rule, ns: int, prefix: string, a: nat, b: nat) {
    && r.ns == ns && r.isPrefix && Nests(r.nameA, prefix) && |r.nameA| == |prefix|
    && r.domainA == a && r.domainB == b
  }

  /** The overlaps a prefix registration rejects. */
  predicate Conflicts(r: Rule, ns: int, prefix: string, a: nat, b: nat) {
    && r.ns == ns
    && if r.isPrefix then
         Nests(r.nameA, prefix) && SharesDomain(r, a, b) && !SamePrefix(r, ns, prefix, a, b)
       else
         || ((r.domainA == a || r.domainA == b) && prefix <= r.nameA)
         || ((r.domainB == a || r.domainB == b) && prefix <= r.nameB)
  }

  predicate UnderPrefix(c: Cell, ns: int, prefix: string, from: nat, to: nat) {
    c.ns == ns && (c.domain == from || c.domain == to) && prefix <= c.name
  }

  predicate ValidPrefix(prefix: string) {
    |prefix| >= 2 && prefix[0] == '/'
  }

  ghost function AddPrefix(rules: map<int, Rule>, occupied: set<Cell>, next: int, ns: int,
                           prefix: string, from: nat, to: nat, allocOk: bool)
    : (map<int, Rule>, Result<()>)
  {
    var a, b := Min(from, to), Max(from, to);
    if from == to || !ValidPrefix(prefix) then (rules, Err(EINVAL))
    else if exists i :: i in rules && Conflicts(rules[i], ns, prefix, a, b) then (rules, Err(EBUSY))
    else if exists i :: i in rules && SamePrefix(rules[i], ns, prefix, a, b) then
      var i :| i in rules && SamePrefix(rules[i], ns, prefix, a, b);
      if Enables(rules[i], from, to) then (rules, Ok(()))
      else if exists c :: c in occupied && UnderPrefix(c, ns, prefix, from, to) then (rules, Err(EBUSY))
      else (rules[i := Enabled(rules[i], from, to)], Ok(()))
    else if exists c :: c in occupied && UnderPrefix(c, ns, prefix, from, to) then (rules, Err(EBUSY))
    else if !allocOk then (rules, Err(ENOMEM))
    else (rules[next := NewRule(ns, prefix, prefix, from, to, true)], Ok(()))
  }

  // ---------- Registration keeps the cells disjoint ----------

  /** Both prefixes of one name, so one of them is a prefix of the other. */
  lemma PrefixesNest(p: string, q: string, name: string)
    requires p <= name && q <= name
    ensures Nests(p, q)
  {
    if |p| <= |q| {
      assert q[..|p|] == name[..|p|];
    } else {
      assert p[..|q|] == name[..|q|];
    }
  }

  /** A prefix registration is rejected exactly when some cell would be covered twice. */
  lemma ConflictIsOverlap(r: Rule, ns: int, prefix: string, from: nat, to: nat)
    requires from != to && Canonical(r)
    ensures var a, b := Min(from, to), Max(from, to);
      Conflicts(r, ns, prefix, a, b) || SamePrefix(r, ns, prefix, a, b)
      <==> exists c :: Matches(r, c) && Matches(NewRule(ns, prefix, prefix, from, to, true), c)
  {
    var a, b := Min(from, to), Max(from, to);
    var n := NewRule(ns, prefix, prefix, from, to, true);
    if c :| Matches(r, c) && Matches(n, c) {
      if r.isPrefix {
        PrefixesNest(r.nameA, prefix, c.name);
      }
    }
    if Conflicts(r, ns, prefix, a, b) || SamePrefix(r, ns, prefix, a, b) {
      var domain := if r.domainA == a || r.domainA == b then r.domainA else r.domainB;
      if r.isPrefix {
        var longer := if |r.nameA| <= |prefix| then prefix else r.nameA;
        assert Matches(r, Cell(ns, longer, domain)) && Matches(n, Cell(ns, longer, domain));
      } else if (r.domainA == a || r.domainA == b) && prefix <= r.nameA {
        assert Matches(r, Cell(ns, r.nameA, r.domainA)) && Matches(n, Cell(ns, r.nameA, r.domainA));
      } else {
        assert Matches(r, Cell(ns, r.nameB, r.domainB)) && Matches(n, Cell(ns, r.nameB, r.domainB));
      }
    }
  }

  /** Turning a direction on changes no coverage. */
  lemma EnabledCoverage(r: Rule, from: nat, to: nat, c: Cell)
    ensures Matches(Enabled(r, from, to), c) <==> Matches(r, c)
  {
  }

  lemma EnabledKeepsDisjoint(rules: map<int, Rule>, i: int, from: nat, to: nat)
    requires Disjoint(rules) && i in rules
    ensures Disjoint(rules[i := Enabled(rules[i], from, to)])
    ensures forall c :: Find(rules[i := Enabled(rules[i], from, to)], c) == Find(rules, c)
  {
    var after := rules[i := Enabled(rules[i], from, to)];
    forall j, c | j in rules ensures Matches(after[j], c) <==> Matches(rules[j], c) {
      EnabledCoverage(rules[i], from, to, c);
    }
    assert Disjoint(after);
    forall c ensures Find(after, c) == Find(rules, c) {
      SameCoverageSameFind(rules, after, c);
    }
  }

  lemma SameCoverageSameFind(rules: map<int, Rule>, after: map<int, Rule>, c: Cell)
    requires Disjoint(rules) && Disjoint(after) && after.Keys == rules.Keys
    requires forall j :: j in rules ==> (Matches(after[j], c) <==> Matches(rules[j], c))
    ensures Find(after, c) == Find(rules, c)
  {
    if Find(rules, c).Some? {
      FindIs(rules, c, Find(rules, c).value);
      FindIs(after, c, Find(rules, c).value);
    } else {
      FindNothing(rules, c);
      FindNothing(after, c);
    }
  }

  lemma InsertKeepsDisjoint(rules: map<int, Rule>, next: int, r: Rule)
    requires Disjoint(rules) && next !in rules && Canonical(r)
    requires forall i, c :: i in rules && Matches(rules[i], c) ==> !Matches(r, c)
    ensures Disjoint(rules[next := r])
    ensures forall c :: Find(rules[next := r], c) == if Matches(r, c) then Some(next) else Find(rules, c)
  {
    var after := rules[next := r];
    assert Disjoint(after);
    forall c ensures Find(after, c) == if Matches(r, c) then Some(next) else Find(rules, c) {
      FindIs(after, c, next);
      if !Matches(r, c) {
        if Find(rules, c).Some? {
          FindIs(rules, c, Find(rules, c).value);
          FindIs(after, c, Find(rules, c).value);
        } else {
          FindNothing(rules, c);
          FindNothing(after, c);
        }
      }
    }
  }

  /** What every registration keeps, and what it leaves alone: the rules of occupied cells. */
  ghost predicate RegistrationSafe(rules: map<int, Rule>, after: map<int, Rule>, occupied: set<Cell>) {
    && Disjoint(after)
    && rules.Keys <= after.Keys
    && (forall c :: c in occupied ==> Find(after, c) == Find(rules, c))
    && (forall c, i :: c in occupied && Find(rules, c) == Some(i) && i in rules ==> after[i] == rules[i])
  }

  lemma AddExactSafe(rules: map<int, Rule>, occupied: set<Cell>, next: int, ns: int,
                     nameFrom: string, nameTo: string, from: nat, to: nat, allocOk: bool)
    requires Disjoint(rules) && next !in rules
    ensures RegistrationSafe(rules, AddExact(rules, occupied, next, ns, nameFrom, nameTo, from, to, allocOk).0,
      occupied)
  {
    var a, b := Cell(ns, nameFrom, from), Cell(ns, nameTo, to);
    var after := AddExact(rules, occupied, next, ns, nameFrom, nameTo, from, to, allocOk).0;
    if after != rules {
      if Find(rules, a).Some? {
        var i := Find(rules, a).value;
        EnabledKeepsDisjoint(rules, i, from, to);
        SameRuleIsThePair(rules, a, b);
        forall c | c in occupied ensures Find(rules, c) != Some(i) {
          FindIs(rules, c, i);
        }
      } else {
        FindNothing(rules, a);
        FindNothing(rules, b);
        InsertKeepsDisjoint(rules, next, NewRule(ns, nameFrom, nameTo, from, to, false));
      }
    }
  }

  lemma AddPrefixSafe(rules: map<int, Rule>, occupied: set<Cell>, next: int, ns: int,
                      prefix: string, from: nat, to: nat, allocOk: bool)
    requires Disjoint(rules) && next !in rules
    ensures RegistrationSafe(rules, AddPrefix(rules, occupied, next, ns, prefix, from, to, allocOk).0, occupied)
  {
    var a, b := Min(from, to), Max(from, to);
    var after := AddPrefix(rules, occupied, next, ns, prefix, from, to, allocOk).0;
    if after != rules {
      if exists i :: i in rules && SamePrefix(rules[i], ns, prefix, a, b) {
        var i :| i in rules && SamePrefix(rules[i], ns, prefix, a, b) &&
          after == rules[i := Enabled(rules[i], from, to)];
        EnabledKeepsDisjoint(rules, i, from, to);
        forall c | c in occupied ensures Find(rules, c) != Some(i) {
          FindIs(rules, c, i);
          assert !UnderPrefix(c, ns, prefix, from, to);
        }
      } else {
        var n := NewRule(ns, prefix, prefix, from, to, true);
        forall i, c | i in rules && Matches(rules[i], c) ensures !Matches(n, c) {
          ConflictIsOverlap(rules[i], ns, prefix, from, to);
        }
        InsertKeepsDisjoint(rules, next, n);
      }
    }
  }

  // ---------- Any sequence of registrations ----------

  datatype Registration =
    | Exact(ns: int, nameFrom: string, nameTo: string, from: nat, to: nat, occupied: set<Cell>, allocOk: bool)
    | Prefix(ns: int, prefix: string, from: nat, to: nat, occupied: set<Cell>, allocOk: bool)

  /** The table after `regs`; the k-th registration allocates at address k, whatever cells are occupied by then. */
  ghost function Register(regs: seq<Registration>): map<int, Rule> {
    if regs == [] then map[]
    else
      var k := |regs| - 1;
      var rules := Register(regs[..k]);
      match regs[k]
      case Exact(ns, nf, nt, f, t, occ, ok) => AddExact(rules, occ, k, ns, nf, nt, f, t, ok).0
      case Prefix(ns, p, f, t, occ, ok) => AddPrefix(rules, occ, k, ns, p, f, t, ok).0
  }

  /** Exact and prefix rules stay disjoint in whatever order they are registered. */
  lemma {:induction false} RegistrationsDisjoint(regs: seq<Registration>)
    ensures Disjoint(Register(regs))
    ensures forall i :: i in Register(regs) ==> 0 <= i < |regs|
  {
    if regs != [] {
      var k := |regs| - 1;
      RegistrationsDisjoint(regs[..k]);
      var rules := Register(regs[..k]);
      match regs[k]
      case Exact(ns, nf, nt, f, t, occ, ok) => AddExactSafe(rules, occ, k, ns, nf, nt, f, t, ok);
      case Prefix(ns, p, f, t, occ, ok) => AddPrefixSafe(rules, occ, k, ns, p, f, t, ok);
    }
  }

  // ---------- Scanning the table ----------

  /** The first match in scan order. */
  function FirstMatch(rules: map<int, Rule>, order: seq<int>, c: Cell): Option<int> {
    if order == [] then None
    else if order[0] in rules && Matches(rules[order[0]], c) then Some(order[0])
    else FirstMatch(rules, order[1..], c)
  }

  /** The scan order of the hash table does not matter. */
  lemma {:induction false} ScanOrderIrrelevant(rules: map<int, Rule>, order: seq<int>, c: Cell)
    requires Disjoint(rules)
    ensures (forall i :: i in rules && Matches(rules[i], c) ==> i in order) ==>
      FirstMatch(rules, order, c) == Find(rules, c)
    ensures FirstMatch(rules, order, c).Some? ==> FirstMatch(rules, order, c) == Find(rules, c)
  {
    if order == [] {
      FindNothing(rules, c);
    } else if order[0] in rules && Matches(rules[order[0]], c) {
      FindIs(rules, c, order[0]);
    } else {
      ScanOrderIrrelevant(rules, order[1..], c);
    }
  }
}
