// The rule table with the scans that look rules up and register them.

module RuleTables {
  import opened Base
  import opened Sets
  import opened TopicModel
  import opened DomainRules

  /** Every scanned rule matches nothing, or has been found. */
  lemma SamePrefixUnique(rules: map<int, Rule>, ns: int, prefix: string, a: nat, b: nat, i: int, j: int)
    requires Disjoint(rules) && i in rules && j in rules
    requires SamePrefix(rules[i], ns, prefix, a, b) && SamePrefix(rules[j], ns, prefix, a, b)
    ensures i == j
  {
    var c := Cell(ns, prefix, a);
    assert rules[i].nameA == prefix == rules[j].nameA;
    assert Matches(rules[i], c) && Matches(rules[j], c);
  }

  class RuleTable {
    var rules: map<int, Rule>
    var next: int

    constructor ()
      ensures rules == map[] && next == 0
    {
      rules, next := map[], 0;
    }

    method FindDomainRule(c: Cell) returns (found: Option<int>)
      requires Disjoint(rules)
      ensures found == Find(rules, c) && (found.Some? ==> found.value in rules)
    {
      var remaining := rules.Keys;
      while remaining != {}
        invariant remaining <= rules.Keys
        invariant forall i :: i in rules && i !in remaining ==> !Matches(rules[i], c)
        decreases remaining
      {
        var i := Pick(remaining);
        remaining := remaining - {i};
        var r := rules[i];
        if c.ns != r.ns { continue; }
        if c.domain != r.domainA && c.domain != r.domainB { continue; }
        if r.isPrefix {
          if r.nameA <= c.name {
            FindIs(rules, c, i);
            return Some(i);
          }
          continue;
        }
        if (c.domain == r.domainA && r.nameA == c.name) || (c.domain == r.domainB && r.nameB == c.name) {
          FindIs(rules, c, i);
          return Some(i);
        }
      }
      FindNothing(rules, c);
      found := None;
    }

    method InsertDomainRule(ns: int, nameFrom: string, nameTo: string, from: nat, to: nat, isPrefix: bool,
        allocOk: bool)
      returns (r: Result<()>)
      modifies this`rules
      ensures r == if allocOk then Ok(()) else Err(ENOMEM)
      ensures rules == if allocOk then old(rules)[next := NewRule(ns, nameFrom, nameTo, from, to, isPrefix)]
        else old(rules)
    {
      if !allocOk { return Err(ENOMEM); }
      var fromIsA := from < to;
      var nameA := if fromIsA then nameFrom else nameTo;
      var nameB := if fromIsA then nameTo else nameFrom;
      rules := rules[next := Rule(ns, nameA, nameB, if fromIsA then from else to, if fromIsA then to else from,
                                  fromIsA, !fromIsA, isPrefix)];
      r := Ok(());
    }

    /** `occupied` are the cells of the existing wrappers. A registration uses up one allocation address. */
    method AddDomainRule(occupied: set<Cell>, ns: int, nameFrom: string, nameTo: string, from: nat, to: nat,
        allocOk: bool)
      returns (r: Result<()>)
      requires Disjoint(rules)
      modifies this
      ensures next == old(next) + 1
      ensures (rules, r) == AddExact(old(rules), occupied, old(next), ns, nameFrom, nameTo, from, to, allocOk)
    {
      if from == to { next := next + 1; return Err(EINVAL); }
      var a, b := Cell(ns, nameFrom, from), Cell(ns, nameTo, to);
      var rFrom := FindDomainRule(a);
      var rTo := FindDomainRule(b);
      if rFrom.Some? || rTo.Some? {
        next := next + 1;
        if rFrom != rTo { return Err(EBUSY); }
        var rule := rules[rFrom.value];
        if rule.isPrefix { return Err(EBUSY); }
        var fromIsA := from < to;
        if (fromIsA && rule.aToB) || (!fromIsA && rule.bToA) { return Ok(()); }
        if a in occupied || b in occupied { return Err(EBUSY); }
        rules := rules[rFrom.value := if fromIsA then rule.(aToB := true) else rule.(bToA := true)];
        return Ok(());
      }
      if a in occupied || b in occupied { next := next + 1; return Err(EBUSY); }
      r := InsertDomainRule(ns, nameFrom, nameTo, from, to, false, allocOk);
      next := next + 1;
    }

    method AnyTopicUnderPrefix(occupied: set<Cell>, ns: int, prefix: string, from: nat, to: nat) returns (found: bool)
      ensures found <==> exists c :: c in occupied && UnderPrefix(c, ns, prefix, from, to)
    {
      var remaining := occupied;
      while remaining != {}
        invariant remaining <= occupied
        invariant forall c :: c in occupied && c !in remaining ==> !UnderPrefix(c, ns, prefix, from, to)
        decreases remaining
      {
        var c := Pick(remaining);
        remaining := remaining - {c};
        if c.ns != ns { continue; }
        if c.domain != from && c.domain != to { continue; }
        if prefix <= c.name { return true; }
      }
      found := false;
    }

    /** The overlap scan: an error, or the identical rule if there is one. */
    method ScanPrefix(ns: int, prefix: string, a: nat, b: nat) returns (same: Result<Option<int>>)
      requires Disjoint(rules)
      ensures same.Err? <==> exists i :: i in rules && Conflicts(rules[i], ns, prefix, a, b)
      ensures same.Err? ==> same.error == EBUSY
      ensures same.Ok? && same.value.Some? ==>
        same.value.value in rules && SamePrefix(rules[same.value.value], ns, prefix, a, b)
      ensures same.Ok? && same.value.None? ==> forall i :: i in rules ==> !SamePrefix(rules[i], ns, prefix, a, b)
    {
      var found: Option<int> := None;
      var remaining := rules.Keys;
      while remaining != {}
        invariant remaining <= rules.Keys
        invariant forall i :: i in rules && i !in remaining ==> !Conflicts(rules[i], ns, prefix, a, b)
        invariant found.Some? ==> found.value in rules && SamePrefix(rules[found.value], ns, prefix, a, b)
        invariant found.None? ==> forall i :: i in rules && i !in remaining ==> !SamePrefix(rules[i], ns, prefix, a, b)
        decreases remaining
      {
        var i := Pick(remaining);
        remaining := remaining - {i};
        var r := rules[i];
        if ns != r.ns { continue; }
        if r.isPrefix {
          var nests := if |r.nameA| <= |prefix| then r.nameA <= prefix else prefix <= r.nameA;
          var shares := r.domainA == a || r.domainA == b || r.domainB == a || r.domainB == b;
          if !nests || !shares { continue; }
          if |r.nameA| == |prefix| {
            if r.domainA == a && r.domainB == b {
              found := Some(i);
              continue;
            }
            return Err(EBUSY);
          }
          return Err(EBUSY);
        }
        if ((r.domainA == a || r.domainA == b) && prefix <= r.nameA) ||
            ((r.domainB == a || r.domainB == b) && prefix <= r.nameB) {
          return Err(EBUSY);
        }
      }
      same := Ok(found);
    }

    method AddPrefixDomainRule(occupied: set<Cell>, ns: int, prefix: string, from: nat, to: nat, allocOk: bool)
      returns (r: Result<()>)
      requires Disjoint(rules)
      modifies this
      ensures next == old(next) + 1
      ensures (rules, r) == AddPrefix(old(rules), occupied, old(next), ns, prefix, from, to, allocOk)
    {
      hide Disjoint, Conflicts, SamePrefix, UnderPrefix;
      if from == to || !ValidPrefix(prefix) { next := next + 1; return Err(EINVAL); }
      var a, b := Min(from, to), Max(from, to);
      var same := ScanPrefix(ns, prefix, a, b);
      if same.Err? { next := next + 1; return Err(EBUSY); }
      var busy := AnyTopicUnderPrefix(occupied, ns, prefix, from, to);
      if same.value.Some? {
        next := next + 1;
        var i := same.value.value;
        forall j | j in rules && SamePrefix(rules[j], ns, prefix, a, b) ensures j == i {
          SamePrefixUnique(rules, ns, prefix, a, b, i, j);
        }
        var rule := rules[i];
        var fromIsA := from < to;
        if (fromIsA && rule.aToB) || (!fromIsA && rule.bToA) { return Ok(()); }
        if busy { return Err(EBUSY); }
        rules := rules[i := if fromIsA then rule.(aToB := true) else rule.(bToA := true)];
        return Ok(());
      }
      if busy { next := next + 1; return Err(EBUSY); }
      r := InsertDomainRule(ns, prefix, prefix, from, to, true, allocOk);
      next := next + 1;
    }
  }
}
