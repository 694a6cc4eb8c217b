// Shared vocabulary: results, error numbers and the compile-time limits of the kernel module.

module Base {

  datatype Option<+T> = None | Some(value: T)

  /** The error numbers the modelled ioctls return (as negative values in C). */
  datatype Errno =
    | EINVAL | ENOMEM | ENOBUFS | ENOSPC | ENODATA | EALREADY | ECANCELED | EBUSY | EEXIST | ESRCH

  datatype Result<+T> = Ok(value: T) | Err(error: Errno)

  const MAX_PUBLISHER_NUM: nat := 1024
  const MAX_TOPIC_LOCAL_ID: nat := 4096
  const MAX_SUBSCRIBER_NUM: nat := MAX_TOPIC_LOCAL_ID - MAX_PUBLISHER_NUM
  const MAX_RECEIVE_NUM: nat := 10
  const MAX_RELEASE_NUM: nat := 3
  const NOTIFY_CTXS_MIN_CAPACITY: nat := 8

  function Min(a: int, b: int): int {
    if a <= b then a else b
  }

  function Max(a: int, b: int): int {
    if a <= b then b else a
  }
}

module Sets {

  method Pick<T>(s: set<T>) returns (x: T)
    requires s != {}
    ensures x in s
  {
    x :| x in s;
  }

  ghost function AnyOf<T>(s: set<T>): (x: T)
    requires s != {}
    ensures x in s
  {
    var x :| x in s;
    x
  }

  lemma {:induction false} SubsetCardinality<T>(a: set<T>, b: set<T>)
    requires a <= b
    ensures |a| <= |b|
  {
    if x :| x in a {
      SubsetCardinality(a - {x}, b - {x});
    }
  }

  lemma ValuesWithout<K, V>(m: map<K, V>, k: K)
    ensures (m - {k}).Values <= m.Values
  {
  }

  lemma SameDomainSameSize<K, V, W>(a: map<K, V>, b: map<K, W>)
    requires a.Keys == b.Keys
    ensures |a| == |b|
  {
    assert |a| == |a.Keys| && |b| == |b.Keys|;
  }

  lemma OneMore<K, V>(m: map<K, V>, k: K, v: V)
    requires k !in m
    ensures |m[k := v]| == |m| + 1
  {
    assert m[k := v].Keys == m.Keys + {k};
    assert |m[k := v]| == |m[k := v].Keys| && |m| == |m.Keys|;
  }
}

// Filtering of sequences, by predicates passed as first-class functions.
module Seqs {

  function Filter<T>(s: seq<T>, f: T -> bool): seq<T> {
    if s == [] then []
    else if f(s[|s| - 1]) then Filter(s[..|s| - 1], f) + [s[|s| - 1]]
    else Filter(s[..|s| - 1], f)
  }

  lemma FilterSnoc<T>(s: seq<T>, i: nat, f: T -> bool)
    requires i < |s|
    ensures Filter(s[..i + 1], f) == if f(s[i]) then Filter(s[..i], f) + [s[i]] else Filter(s[..i], f)
  {
    assert s[..i + 1][..i] == s[..i];
  }

  lemma FilterAppend<T>(s: seq<T>, x: T, f: T -> bool)
    ensures Filter(s + [x], f) == if f(x) then Filter(s, f) + [x] else Filter(s, f)
  {
    assert (s + [x])[..|s|] == s;
  }

  lemma {:induction false} FilterConcat<T>(a: seq<T>, b: seq<T>, f: T -> bool)
    ensures Filter(a + b, f) == Filter(a, f) + Filter(b, f)
  {
    if b == [] {
      assert a + b == a;
    } else {
      var c := b[..|b| - 1];
      assert (a + b)[..|a + b| - 1] == a + c;
      FilterConcat(a, c, f);
    }
  }

  lemma {:induction false} FilterMember<T>(s: seq<T>, f: T -> bool, x: T)
    ensures x in Filter(s, f) <==> x in s && f(x)
  {
    if s != [] {
      FilterMember(s[..|s| - 1], f, x);
      assert s == s[..|s| - 1] + [s[|s| - 1]];
    }
  }

  lemma FilterMembers<T>(s: seq<T>, f: T -> bool)
    ensures forall x {:trigger x in Filter(s, f)} {:trigger x in s} :: x in Filter(s, f) <==> x in s && f(x)
  {
    forall x ensures x in Filter(s, f) <==> x in s && f(x) {
      FilterMember(s, f, x);
    }
  }

  // Two predicates that agree on the elements of a sequence filter it alike.
  lemma {:induction false} FilterAgree<T>(s: seq<T>, f: T -> bool, g: T -> bool)
    requires forall i :: 0 <= i < |s| ==> f(s[i]) == g(s[i])
    ensures Filter(s, f) == Filter(s, g)
  {
    if s != [] {
      FilterAgree(s[..|s| - 1], f, g);
    }
  }

  lemma {:induction false} FilterAll<T>(s: seq<T>, f: T -> bool)
    requires forall i :: 0 <= i < |s| ==> f(s[i])
    ensures Filter(s, f) == s
  {
    if s != [] {
      FilterAll(s[..|s| - 1], f);
      assert s == s[..|s| - 1] + [s[|s| - 1]];
    }
  }

  lemma {:induction false} FilterNone<T>(s: seq<T>, f: T -> bool)
    requires forall i :: 0 <= i < |s| ==> !f(s[i])
    ensures Filter(s, f) == []
  {
    if s != [] {
      FilterNone(s[..|s| - 1], f);
    }
  }

  lemma {:induction false} FilterLength<T>(s: seq<T>, f: T -> bool)
    ensures |Filter(s, f)| <= |s|
    ensures (exists i :: 0 <= i < |s| && f(s[i])) ==> |Filter(s, f)| > 0
  {
    if s != [] {
      FilterLength(s[..|s| - 1], f);
      if i :| 0 <= i < |s| && f(s[i]) {
        assert i == |s| - 1 || s[..|s| - 1][i] == s[i];
      }
    }
  }

  lemma FilterPrefix<T>(s: seq<T>, i: nat, f: T -> bool)
    requires i <= |s|
    ensures Filter(s[..i], f) <= Filter(s, f)
  {
    assert s == s[..i] + s[i..];
    FilterConcat(s[..i], s[i..], f);
  }

  lemma InPrefixOrSuffix<T>(s: seq<T>, n: nat, i: nat)
    requires n <= |s| && i < |s|
    ensures if i < n then s[i] in s[..n] else s[i] in s[n..]
  {
    if i < n {
      assert s[..n][i] == s[i];
    } else {
      assert s[n..][i - n] == s[i];
    }
  }

  lemma Inhabited<T>(s: seq<T>)
    ensures s == [] || exists x :: x in s
  {
    if s != [] {
      assert s[0] in s;
    }
  }

  predicate Distinct<T(==)>(s: seq<T>) {
    forall i, j :: 0 <= i < j < |s| ==> s[i] != s[j]
  }

  lemma {:induction false} DistinctCardinality<T>(s: seq<T>)
    requires Distinct(s)
    ensures |set x | x in s| == |s|
  {
    if s != [] {
      var init := s[..|s| - 1];
      DistinctCardinality(init);
      assert (set x | x in s) == (set x | x in init) + {s[|s| - 1]};
    }
  }
}
