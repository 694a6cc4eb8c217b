// The text format of CPU lists: "0-5,8" and back.

module CpuLists {
  import opened Base

  const MAX_CPU_NUMBER: int := 8191
  const INT_MIN: int := -0x8000_0000
  const INT_MAX: int := 0x7FFF_FFFF

  // ---------- Numerals ----------

  predicate IsDigit(c: char) {
    '0' <= c <= '9'
  }

  predicate AllDigits(s: string) {
    forall i :: 0 <= i < |s| ==> IsDigit(s[i])
  }

  function Value(digits: string): nat
    requires AllDigits(digits)
  {
    if digits == "" then 0
    else 10 * Value(digits[..|digits| - 1]) + (digits[|digits| - 1] as int - '0' as int)
  }

  /** std::from_chars into an int, if it consumes everything: a minus sign is allowed, a plus sign is not. */
  function ToNumber(s: string): Option<int> {
    var negative := s != "" && s[0] == '-';
    var digits := if negative then s[1..] else s;
    if digits == "" || !AllDigits(digits) then None
    else
      var v: int := if negative then 0 - Value(digits) else Value(digits);
      if INT_MIN <= v <= INT_MAX then Some(v) else None
  }

  function Digit(d: nat): (c: char)
    requires d < 10
    ensures IsDigit(c) && c as int - '0' as int == d
  {
    (d + '0' as int) as char
  }

  /** std::to_string. */
  function Decimal(n: nat): (s: string)
    ensures s != "" && AllDigits(s)
  {
    if n < 10 then [Digit(n)] else Decimal(n / 10) + [Digit(n % 10)]
  }

  function ToString(n: int): string {
    if n < 0 then "-" + Decimal(-n) else Decimal(n)
  }

  lemma {:induction false} DecimalValue(n: nat)
    ensures Value(Decimal(n)) == n
  {
    if n >= 10 {
      DecimalValue(n / 10);
      assert Decimal(n)[..|Decimal(n)| - 1] == Decimal(n / 10);
    } else {
      assert [Digit(n)][..0] == "";
    }
  }

  lemma NumeralRoundTrip(n: nat)
    requires n <= INT_MAX
    ensures ToNumber(ToString(n)) == Some(n) && AllDigits(ToString(n)) && ToString(n) != ""
  {
    DecimalValue(n);
    assert IsDigit(Decimal(n)[0]);
  }

  // ---------- Tokens ----------

  /** Position of the first `c`, or the length. */
  function IndexOf(s: string, c: char): (i: nat)
    ensures i <= |s| && c !in s[..i] && (i < |s| <==> c in s) && (i < |s| ==> s[i] == c)
  {
    if s == "" then 0
    else if s[0] == c then 0
    else
      assert s == [s[0]] + s[1..];
      var i := IndexOf(s[1..], c);
      assert s[..i + 1] == [s[0]] + s[1..][..i];
      i + 1
  }

  function Tokens(s: string): seq<string>
    decreases |s|
  {
    var i := IndexOf(s, ',');
    if i == |s| then [s] else [s[..i]] + Tokens(s[i + 1..])
  }

  function Join(ts: seq<string>): string {
    if ts == [] then ""
    else if |ts| == 1 then ts[0]
    else ts[0] + "," + Join(ts[1..])
  }

  lemma JoinCons(t: string, ts: seq<string>)
    requires ts != []
    ensures Join([t] + ts) == t + "," + Join(ts)
  {
    assert ([t] + ts)[1..] == ts;
  }

  lemma IndexIs(s: string, c: char, i: nat)
    requires i < |s| && s[i] == c && c !in s[..i]
    ensures IndexOf(s, c) == i
  {
    var j := IndexOf(s, c);
    assert c in s;
    assert forall k :: 0 <= k < i ==> s[k] == s[..i][k];
    assert forall k :: 0 <= k < j ==> s[k] == s[..j][k];
  }

  lemma TokensCons(t: string, rest: string)
    requires ',' !in t
    ensures Tokens(t + "," + rest) == [t] + Tokens(rest)
  {
    var s := t + "," + rest;
    assert s[..|t|] == t && s[|t| + 1..] == rest;
    IndexIs(s, ',', |t|);
  }

  /** Splitting loses nothing. */
  lemma {:induction false} JoinTokens(s: string)
    ensures Join(Tokens(s)) == s && Tokens(s) != [] && forall i :: 0 <= i < |Tokens(s)| ==> ',' !in Tokens(s)[i]
    decreases |s|
  {
    var i := IndexOf(s, ',');
    if i < |s| {
      var t, rest := s[..i], s[i + 1..];
      assert s == t + "," + rest;
      hide Tokens, Join, IndexOf;
      JoinTokens(rest);
      TokensCons(t, rest);
      JoinCons(t, Tokens(rest));
    }
  }

  lemma {:induction false} TokensJoin(ts: seq<string>)
    requires ts != [] && forall i :: 0 <= i < |ts| ==> ',' !in ts[i]
    ensures Tokens(Join(ts)) == ts
  {
    if |ts| == 1 {
      assert ',' !in ts[0];
    } else {
      hide Tokens, Join, IndexOf;
      assert ts == [ts[0]] + ts[1..];
      TokensJoin(ts[1..]);
      JoinCons(ts[0], ts[1..]);
      TokensCons(ts[0], Join(ts[1..]));
    }
  }

  // ---------- What a text stands for ----------

  datatype Range = Range(first: int, last: int)

  /** A number, or two numbers around the first dash. */
  function RangeOf(token: string): Option<Range> {
    var dash := IndexOf(token, '-');
    var first := ToNumber(token[..dash]);
    var last := if dash == |token| then first else ToNumber(token[dash + 1..]);
    if first.Some? && last.Some? && 0 <= first.value <= last.value <= MAX_CPU_NUMBER
    then Some(Range(first.value, last.value)) else None
  }

  predicate Covers(token: string, cpu: int) {
    RangeOf(token).Some? && RangeOf(token).value.first <= cpu <= RangeOf(token).value.last
  }

  /** A non-empty run of digits. */
  predicate Numeral(s: string) {
    s != "" && AllDigits(s)
  }

  predicate Zeros(s: string) {
    s != "" && forall i :: 0 <= i < |s| ==> s[i] == '0'
  }

  lemma {:induction false} ValueOfZeros(s: string)
    requires AllDigits(s)
    ensures Value(s) == 0 <==> s == "" || Zeros(s)
  {
    if s != "" {
      var init := s[..|s| - 1];
      ValueOfZeros(init);
      assert forall i :: 0 <= i < |init| ==> init[i] == s[i];
    }
  }

  /** What the number reader accepts as a number that is not negative. */
  lemma NonNegativeNumbers(s: string, n: int)
    requires 0 <= n <= INT_MAX
    ensures ToNumber(s) == Some(n) <==>
      || (Numeral(s) && Value(s) == n)
      || (n == 0 && s != "" && s[0] == '-' && Zeros(s[1..]))
  {
    if s != "" && s[0] == '-' {
      if AllDigits(s[1..]) {
        ValueOfZeros(s[1..]);
      }
      assert !IsDigit(s[0]);
    }
  }

  /** A number: "8". */
  predicate SingleToken(token: string) {
    Numeral(token) && Value(token) <= MAX_CPU_NUMBER
  }

  /** Two numbers around one dash: "0-5". */
  predicate RangeToken(token: string) {
    var dash := IndexOf(token, '-');
    && dash < |token| && Numeral(token[..dash]) && Numeral(token[dash + 1..])
    && Value(token[..dash]) <= Value(token[dash + 1..]) <= MAX_CPU_NUMBER
  }

  /** Zeros, two dashes, zeros: the sign of the second number is read as part of it. */
  predicate MinusZeroToken(token: string) {
    var dash := IndexOf(token, '-');
    dash + 1 < |token| && Zeros(token[..dash]) && token[dash + 1] == '-' && Zeros(token[dash + 2..])
  }

  /** Exactly these tokens are accepted. */
  lemma AcceptedTokens(token: string)
    ensures RangeOf(token).Some? <==> SingleToken(token) || RangeToken(token) || MinusZeroToken(token)
  {
    hide ToNumber, Value, AllDigits, Zeros;
    var dash := IndexOf(token, '-');
    if dash == |token| {
      AcceptedSingle(token);
    } else {
      AcceptedRange(token, dash, token[..dash], token[dash + 1..]);
    }
  }

  lemma AcceptedSingle(token: string)
    requires IndexOf(token, '-') == |token|
    ensures RangeOf(token).Some? <==> SingleToken(token)
    ensures !RangeToken(token) && !MinusZeroToken(token)
  {
    hide ToNumber, Value;
    assert token[..|token|] == token;
    assert token != "" ==> token[0] in token;
    if ToNumber(token).Some? {
      NumberInRange(token);
      NonNegativeNumbers(token, Max(0, ToNumber(token).value));
    }
    if SingleToken(token) {
      NonNegativeNumbers(token, Value(token));
    }
  }

  lemma NumberInRange(s: string)
    requires ToNumber(s).Some?
    ensures INT_MIN <= ToNumber(s).value <= INT_MAX
    ensures s != "" && s[0] != '-' ==> ToNumber(s).value >= 0
  {
  }

  lemma AcceptedRange(token: string, dash: nat, first: string, last: string)
    requires dash == IndexOf(token, '-') < |token| && first == token[..dash] && last == token[dash + 1..]
    ensures RangeOf(token).Some? <==> RangeToken(token) || MinusZeroToken(token)
    ensures !SingleToken(token)
  {
    hide ToNumber, Value, Zeros;
    assert !IsDigit(token[dash]);
    assert first != "" ==> first[0] in first;
    assert last != "" ==> last[0] == token[dash + 1] && last[1..] == token[dash + 2..];
    if RangeOf(token).Some? {
      RangeIsAccepted(token, dash, first, last);
    }
    if RangeToken(token) {
      NonNegativeNumbers(first, Value(first));
      NonNegativeNumbers(last, Value(last));
    }
    if MinusZeroToken(token) {
      ZerosAreDigits(first);
      ValueOfZeros(first);
      NonNegativeNumbers(first, 0);
      NonNegativeNumbers(last, 0);
    }
  }

  lemma RangeIsAccepted(token: string, dash: nat, first: string, last: string)
    requires dash == IndexOf(token, '-') < |token| && first == token[..dash] && last == token[dash + 1..]
    requires first != "" ==> first[0] != '-'
    requires last != "" ==> last[0] == token[dash + 1] && last[1..] == token[dash + 2..]
    requires RangeOf(token).Some?
    ensures RangeToken(token) || MinusZeroToken(token)
  {
    hide ToNumber, Value, Zeros, AllDigits, IndexOf;
    NumberInRange(first);
    NumberInRange(last);
    NonNegativeNumbers(first, ToNumber(first).value);
    NonNegativeNumbers(last, ToNumber(last).value);
    if Numeral(first) { ValueOfZeros(first); }
  }

  /** What an accepted token covers: the number, or all numbers from the first to the last of the two. */
  lemma TokenCovers(token: string, cpu: int)
    ensures var dash := IndexOf(token, '-');
      Covers(token, cpu) <==>
      || (SingleToken(token) && cpu == Value(token))
      || (RangeToken(token) && Value(token[..dash]) <= cpu <= Value(token[dash + 1..]))
      || (MinusZeroToken(token) && cpu == 0)
  {
    hide ToNumber, Value, AllDigits, Zeros;
    AcceptedTokens(token);
    var dash := IndexOf(token, '-');
    if dash == |token| {
      assert token[..dash] == token;
      NumberOf(token);
      AcceptedSingle(token);
    } else {
      NumberOf(token[..dash]);
      NumberOf(token[dash + 1..]);
      AcceptedRange(token, dash, token[..dash], token[dash + 1..]);
      if MinusZeroToken(token) {
        ZeroRange(token, dash, token[..dash], token[dash + 1..]);
      }
    }
  }

  lemma NumberOf(s: string)
    ensures Numeral(s) && Value(s) <= INT_MAX ==> ToNumber(s) == Some(Value(s))
  {
    hide Value;
    if Numeral(s) {
      assert IsDigit(s[0]);
    }
  }

  lemma ZeroRange(token: string, dash: nat, first: string, last: string)
    requires dash == IndexOf(token, '-') < |token| && first == token[..dash] && last == token[dash + 1..]
    requires MinusZeroToken(token)
    ensures RangeOf(token) == Some(Range(0, 0)) && !RangeToken(token)
  {
    hide ToNumber, Value, Zeros;
    assert last[0] == token[dash + 1] && last[1..] == token[dash + 2..];
    ZerosAreDigits(first);
    ValueOfZeros(first);
    NonNegativeNumbers(first, 0);
    NonNegativeNumbers(last, 0);
  }

  lemma ZerosAreDigits(s: string)
    requires Zeros(s)
    ensures Numeral(s)
  {
  }

  /** An accepted token is in the kernel's format exactly when its first dash is not followed by another. */
  lemma KernelFormatTokens(token: string)
    requires RangeOf(token).Some?
    ensures var dash := IndexOf(token, '-');
      SingleToken(token) || RangeToken(token) <==> !(dash + 1 < |token| && token[dash + 1] == '-')
  {
    hide Value, RangeOf, Zeros;
    AcceptedTokens(token);
    var dash := IndexOf(token, '-');
    if dash < |token| {
      assert !IsDigit(token[dash]);
      var last := token[dash + 1..];
      assert last != "" ==> last[0] == token[dash + 1];
    }
  }

  lemma MinusZeroAccepted()
    ensures RangeOf("0--0") == Some(Range(0, 0))
  {
    var t := "0--0";
    IndexIs(t, '-', 1);
    assert t[..1] == "0" && t[2..] == "-0" && t[2..][1..] == "0";
    assert "0"[..0] == "";
    assert Value("0") == 0;
  }

  predicate IsBlank(c: char) {
    c == '\n' || c == '\r' || c == ' '
  }

  function Trimmed(s: string): (t: string)
    ensures t <= s && (t == "" || !IsBlank(t[|t| - 1]))
    ensures forall i :: |t| <= i < |s| ==> IsBlank(s[i])
  {
    if s != "" && IsBlank(s[|s| - 1]) then Trimmed(s[..|s| - 1]) else s
  }

  predicate WellFormed(s: string) {
    Trimmed(s) != "" && forall t :: t in Tokens(Trimmed(s)) ==> RangeOf(t).Some?
  }

  ghost predicate Lists(s: string, cpu: int) {
    exists t :: t in Tokens(Trimmed(s)) && Covers(t, cpu)
  }

  predicate StrictlyIncreasing(s: seq<int>) {
    forall i, j :: 0 <= i < j < |s| ==> s[i] < s[j]
  }

  /** `r` is the reading of `s`: the increasing list of everything its numbers and ranges cover. */
  ghost predicate Reads(s: string, r: Option<seq<int>>) {
    if WellFormed(s)
    then r.Some? && StrictlyIncreasing(r.value) && forall c :: c in r.value <==> Lists(s, c)
    else r.None?
  }

  /** A strictly increasing list is determined by its elements. */
  lemma {:induction false} SameElements(a: seq<int>, b: seq<int>)
    requires StrictlyIncreasing(a) && StrictlyIncreasing(b) && forall c :: c in a <==> c in b
    ensures a == b
  {
    assert (a != [] ==> a[0] in a) && (b != [] ==> b[0] in b);
    if a != [] {
      assert a[|a| - 1] in a && a[|a| - 1] in b;
      var a1, b1 := a[..|a| - 1], b[..|b| - 1];
      assert b[|b| - 1] in b && b[|b| - 1] in a;
      assert a[|a| - 1] == b[|b| - 1];
      forall c ensures c in a1 <==> c in b1 {
        assert c in a <==> c in a1 || c == a[|a| - 1];
        assert c in b <==> c in b1 || c == b[|b| - 1];
        assert a[|a| - 1] !in a1 && b[|b| - 1] !in b1;
      }
      SameElements(a1, b1);
      assert a == a1 + [a[|a| - 1]] && b == b1 + [b[|b| - 1]];
    }
  }

  /** A text has one reading. */
  lemma ReadingUnique(s: string, r: Option<seq<int>>, q: Option<seq<int>>)
    requires Reads(s, r) && Reads(s, q)
    ensures r == q
  {
    if WellFormed(s) {
      SameElements(r.value, q.value);
    }
  }

  // ---------- Formatting ----------

  function Numerals(cpus: seq<int>): seq<string> {
    seq(|cpus|, i requires 0 <= i < |cpus| => ToString(cpus[i]))
  }

  lemma {:induction false} JoinSnoc(ts: seq<string>, t: string)
    ensures Join(ts + [t]) == if ts == [] then t else Join(ts) + "," + t
  {
    if |ts| == 1 {
      assert (ts + [t])[1..] == [t];
    } else if ts != [] {
      assert (ts + [t])[1..] == ts[1..] + [t];
      JoinSnoc(ts[1..], t);
      assert ts[0] + "," + (Join(ts[1..]) + "," + t) == ts[0] + "," + Join(ts[1..]) + "," + t;
    }
  }

  method FormatCpuList(cpus: seq<int>) returns (s: string)
    ensures s == Join(Numerals(cpus))
  {
    s := "";
    for i := 0 to |cpus|
      invariant s == Join(Numerals(cpus[..i]))
    {
      assert Numerals(cpus[..i + 1]) == Numerals(cpus[..i]) + [ToString(cpus[i])];
      JoinSnoc(Numerals(cpus[..i]), ToString(cpus[i]));
      if i > 0 { s := s + ","; }
      s := s + ToString(cpus[i]);
    }
    assert cpus[..|cpus|] == cpus;
  }

  predicate Formattable(cpus: seq<int>) {
    cpus != [] && StrictlyIncreasing(cpus) && forall i :: 0 <= i < |cpus| ==> 0 <= cpus[i] <= MAX_CPU_NUMBER
  }

  lemma NumeralToken(n: int)
    requires 0 <= n <= MAX_CPU_NUMBER
    ensures RangeOf(ToString(n)) == Some(Range(n, n)) && ',' !in ToString(n)
    ensures ToString(n) != "" && IsDigit(ToString(n)[|ToString(n)| - 1])
  {
    NumeralRoundTrip(n);
    var t := ToString(n);
    assert '-' !in t && ',' !in t by { NoneIn(t, '-'); NoneIn(t, ','); }
    assert t[..|t|] == t;
  }

  lemma NoneIn(s: string, c: char)
    requires AllDigits(s) && !IsDigit(c)
    ensures c !in s
  {
  }

  /** The last character of a joined list is the last one of its last token. */
  lemma {:induction false} JoinLast(ts: seq<string>)
    requires ts != [] && ts[|ts| - 1] != ""
    ensures var t := ts[|ts| - 1]; var s := Join(ts);
      s != "" && s[|s| - 1] == t[|t| - 1]
  {
    if |ts| > 1 {
      JoinLast(ts[1..]);
    }
  }

  lemma NothingToTrim(s: string)
    requires s != "" && IsDigit(s[|s| - 1])
    ensures Trimmed(s) == s
  {
  }

  /** What is written for an increasing list in range reads back as that list. */
  lemma FormatReadsBack(cpus: seq<int>)
    requires Formattable(cpus)
    ensures Reads(Join(Numerals(cpus)), Some(cpus))
  {
    hide ToString, RangeOf, Join, Tokens, Trimmed, StrictlyIncreasing;
    var ts := Numerals(cpus);
    var s := Join(ts);
    forall i | 0 <= i < |ts|
      ensures RangeOf(ts[i]) == Some(Range(cpus[i], cpus[i])) && ',' !in ts[i] && ts[i] != ""
      ensures IsDigit(ts[i][|ts[i]| - 1])
    {
      NumeralToken(cpus[i]);
    }
    JoinLast(ts);
    NothingToTrim(s);
    TokensJoin(ts);
    SingletonRanges(ts, cpus);
  }

  lemma SingletonRanges(ts: seq<string>, cpus: seq<int>)
    requires |ts| == |cpus| && forall i :: 0 <= i < |ts| ==> RangeOf(ts[i]) == Some(Range(cpus[i], cpus[i]))
    ensures forall t :: t in ts ==> RangeOf(t).Some?
    ensures forall c :: c in cpus <==> exists t :: t in ts && Covers(t, c)
  {
    hide RangeOf;
    forall c | c in cpus ensures exists t :: t in ts && Covers(t, c) {
      var i :| 0 <= i < |cpus| && cpus[i] == c;
      assert ts[i] in ts && Covers(ts[i], c);
    }
  }

  // ---------- Parsing ----------

  lemma BelowLast(init: seq<int>, last: int)
    requires StrictlyIncreasing(init + [last])
    ensures forall c :: c in init ==> c < last
  {
    var s := init + [last];
    forall c | c in init ensures c < last {
      var i :| 0 <= i < |init| && init[i] == c;
      assert s[i] < s[|init|];
    }
  }

  /** std::sort, then std::unique with erase: inserts into an increasing list, dropping a duplicate. */
  function Insert(x: int, s: seq<int>): (r: seq<int>)
    requires StrictlyIncreasing(s)
    ensures StrictlyIncreasing(r) && forall c :: c in r <==> c == x || c in s
  {
    if s == [] then [x]
    else
      var init, last := s[..|s| - 1], s[|s| - 1];
      assert s == init + [last];
      if x > last then s + [x]
      else if x == last then s
      else
        var r := Insert(x, init);
        BelowLast(init, last);
        assert forall c :: c in r ==> c < last;
        assert forall i :: 0 <= i < |r| ==> r[i] in r;
        r + [last]
  }

  function SortUnique(s: seq<int>): (r: seq<int>)
    ensures StrictlyIncreasing(r) && forall c :: c in r <==> c in s
  {
    if s == [] then []
    else
      assert s == s[..|s| - 1] + [s[|s| - 1]];
      Insert(s[|s| - 1], SortUnique(s[..|s| - 1]))
  }

  lemma TrimmedPrefix(s: string, n: nat)
    requires n <= |s| && forall i :: n <= i < |s| ==> IsBlank(s[i])
    requires n == 0 || !IsBlank(s[n - 1])
    ensures Trimmed(s) == s[..n]
  {
    var t := Trimmed(s);
    assert t == s[..|t|];
    assert t != "" ==> t[|t| - 1] == s[|t| - 1];
  }

  method ExpandRange(cpus: seq<int>, first: int, last: int) returns (r: seq<int>)
    requires first <= last
    ensures forall c :: c in r <==> c in cpus || first <= c <= last
  {
    r := cpus;
    for cpu := first to last + 1
      invariant forall c :: c in r <==> c in cpus || first <= c < cpu
    {
      r := r + [cpu];
    }
  }

  method ParseToken(token: string, cpus: seq<int>) returns (r: Option<seq<int>>)
    ensures r.Some? <==> RangeOf(token).Some?
    ensures r.Some? ==> forall c :: c in r.value <==> c in cpus || Covers(token, c)
  {
    hide ToNumber;
    var dash := IndexOf(token, '-');
    if dash == |token| {
      assert token[..dash] == token;
      var cpu := ToNumber(token);
      if cpu.None? || cpu.value < 0 || cpu.value > MAX_CPU_NUMBER { return None; }
      r := Some(cpus + [cpu.value]);
    } else {
      var first := ToNumber(token[..dash]);
      var last := ToNumber(token[dash + 1..]);
      if first.None? || last.None? || first.value < 0 || last.value < first.value || last.value > MAX_CPU_NUMBER {
        return None;
      }
      var all := ExpandRange(cpus, first.value, last.value);
      r := Some(all);
    }
  }

  /** The tokens read so far, and what is left of the text. */
  ghost predicate Progress(text: string, done: seq<string>, rest: string, cpus: seq<int>) {
    && Tokens(text) == done + (if rest == "" then [] else Tokens(rest))
    && (forall t :: t in done ==> RangeOf(t).Some?)
    && (forall c :: c in cpus <==> exists t :: t in done && Covers(t, c))
  }

  function Next(rest: string): string {
    var i := IndexOf(rest, ',');
    if i == |rest| then "" else rest[i + 1..]
  }

  lemma TokensOf(rest: string)
    ensures var t := rest[..IndexOf(rest, ',')];
      Tokens(rest) == if |t| < |rest| then [t] + Tokens(Next(rest)) else [t]
    ensures Tokens("") == [""]
  {
    assert rest[..|rest|] == rest;
  }

  lemma TokensStep(done: seq<string>, rest: string)
    requires rest != ""
    ensures var t := rest[..IndexOf(rest, ',')];
      && t in Tokens(rest)
      && (|t| < |rest| && Next(rest) == "" ==> "" in Tokens(rest))
      && (|t| == |rest| ==> Next(rest) == "")
      && ((|t| < |rest| ==> Next(rest) != "") ==>
            done + Tokens(rest) == done + [t] + if Next(rest) == "" then [] else Tokens(Next(rest)))
  {
    var t := rest[..IndexOf(rest, ',')];
    TokensOf(rest);
    assert |t| == |rest| ==> Next(rest) == "";
    hide Tokens, Next, IndexOf;
    Associative(done, t, Tokens(Next(rest)));
    assert Tokens(rest)[0] == t;
    if |t| < |rest| && Next(rest) == "" {
      assert Tokens(rest)[1] == "";
    }
  }

  lemma Associative(a: seq<string>, t: string, b: seq<string>)
    ensures a + ([t] + b) == a + [t] + b && a + [t] + [] == a + [t]
  {
  }

  lemma ProgressStep(text: string, done: seq<string>, rest: string, cpus: seq<int>, after: seq<int>)
    requires Progress(text, done, rest, cpus) && rest != ""
    ensures var t := rest[..IndexOf(rest, ',')];
      && t in Tokens(text)
      && (|t| < |rest| && Next(rest) == "" ==> "" in Tokens(text))
      && ((|t| < |rest| ==> Next(rest) != "") && RangeOf(t).Some?
          && (forall c :: c in after <==> c in cpus || Covers(t, c))
          ==> Progress(text, done + [t], Next(rest), after))
  {
    hide RangeOf, Covers, Tokens, Next, IndexOf;
    TokensStep(done, rest);
    var t := rest[..IndexOf(rest, ',')];
    var more := done + [t];
    assert forall u :: u in more <==> u in done || u == t;
  }

  lemma RejectedToken(s: string, t: string)
    requires t in Tokens(Trimmed(s)) && RangeOf(t).None?
    ensures !WellFormed(s)
  {
  }

  lemma EmptyTokenRejected()
    ensures RangeOf("").None?
  {
  }

  method ParseCpuList(s: string) returns (r: Option<seq<int>>)
    ensures Reads(s, r)
  {
    hide RangeOf, Covers, Tokens, Progress;
    var n := |s|;
    while n > 0 && IsBlank(s[n - 1])
      invariant 0 <= n <= |s| && forall i :: n <= i < |s| ==> IsBlank(s[i])
    {
      n := n - 1;
    }
    TrimmedPrefix(s, n);
    var rest := s[..n];
    ghost var text, done := rest, [];
    if rest == "" { return None; }
    var cpus := [];
    EmptyTokenRejected();
    assert Progress(text, done, rest, cpus) by { ProgressStarts(text); }
    while rest != ""
      invariant Progress(text, done, rest, cpus)
      decreases |rest|
    {
      var comma := IndexOf(rest, ',');
      var token := rest[..comma];
      var next := Next(rest);
      if comma != |rest| && next == "" {
        ProgressStep(text, done, rest, cpus, cpus);
        RejectedToken(s, "");
        return None;
      }
      var parsed := ParseToken(token, cpus);
      if parsed.None? {
        ProgressStep(text, done, rest, cpus, cpus);
        RejectedToken(s, token);
        return None;
      }
      ProgressStep(text, done, rest, cpus, parsed.value);
      cpus, rest, done := parsed.value, next, done + [token];
    }
    ProgressEnds(s, text, done, cpus);
    r := Some(SortUnique(cpus));
  }

  lemma ProgressStarts(text: string)
    requires text != ""
    ensures Progress(text, [], text, [])
  {
    assert [] + Tokens(text) == Tokens(text);
  }

  lemma ProgressEnds(s: string, text: string, done: seq<string>, cpus: seq<int>)
    requires Progress(text, done, "", cpus) && text == Trimmed(s) && text != ""
    ensures WellFormed(s) && forall c :: c in cpus <==> Lists(s, c)
  {
    assert done + [] == done;
  }

  /** Formatting, then parsing. */
  method FormatThenParse(cpus: seq<int>) returns (r: Option<seq<int>>)
    requires Formattable(cpus)
    ensures r == Some(cpus)
  {
    var s := FormatCpuList(cpus);
    r := ParseCpuList(s);
    FormatReadsBack(cpus);
    ReadingUnique(s, r, Some(cpus));
  }

  /** Only the CPUs this machine can manage; `bound` is the highest of them. */
  method ParseManageableCpuList(s: string, bound: int) returns (r: Option<seq<int>>)
    ensures r.Some? <==> WellFormed(s) && exists c :: c <= bound && Lists(s, c)
    ensures r.Some? ==> StrictlyIncreasing(r.value) && forall c :: c in r.value <==> c <= bound && Lists(s, c)
  {
    hide WellFormed, Lists;
    var parsed := ParseCpuList(s);
    if parsed.None? { return None; }
    var cpus := [];
    for i := 0 to |parsed.value|
      invariant StrictlyIncreasing(cpus)
      invariant forall c :: c in cpus <==> c <= bound && c in parsed.value[..i]
      invariant forall c :: c in cpus ==> forall j :: i <= j < |parsed.value| ==> c < parsed.value[j]
    {
      assert parsed.value[..i + 1] == parsed.value[..i] + [parsed.value[i]];
      if parsed.value[i] <= bound {
        assert forall k :: 0 <= k < |cpus| ==> cpus[k] in cpus;
        cpus := cpus + [parsed.value[i]];
      }
    }
    assert parsed.value[..|parsed.value|] == parsed.value;
    if cpus == [] { return None; }
    assert cpus[0] in cpus;
    r := Some(cpus);
  }
}
