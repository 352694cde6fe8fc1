/** Topic matching and handler-name ranking, as in internal/matcher/keymatcher.go.

    `SegmentsMatch` and `CompareSegments` are the code's recursions. They are tied to two independent
    definitions: `Cut`, the block alignment of the AMQP topic rules, and `Less`, a lexicographic rank order. */
module Matcher {

  const SINGLE: string := "*"
  const MULTI: string := "#"

  predicate HasWildcard(s: string) {
    '*' in s || '#' in s
  }

  // ----- segments -----

  predicate DotFree(parts: seq<string>) {
    forall i :: 0 <= i < |parts| ==> '.' !in parts[i]
  }

  /** `strings.Split(s, ".")`: always at least one segment, none of which holds a dot. */
  function Split(s: string): (parts: seq<string>)
    ensures |parts| >= 1 && DotFree(parts)
  {
    if s == "" then [""]
    else
      var rest := Split(s[1..]);
      if s[0] == '.' then [""] + rest else [[s[0]] + rest[0]] + rest[1..]
  }

  function Join(parts: seq<string>): string
    requires |parts| >= 1
  {
    if |parts| == 1 then parts[0] else parts[0] + "." + Join(parts[1..])
  }

  lemma {:induction false} JoinCons(head: string, rest: seq<string>)
    requires |rest| >= 1
    ensures Join([head] + rest) == head + "." + Join(rest)
  {
    assert ([head] + rest)[1..] == rest;
  }

  lemma {:induction false} JoinLonger(c: char, rest: seq<string>)
    requires |rest| >= 1
    ensures Join([[c] + rest[0]] + rest[1..]) == [c] + Join(rest)
  {
    assert ([[c] + rest[0]] + rest[1..])[1..] == rest[1..];
    if |rest| > 1 {
      var tail := Join(rest[1..]);
      assert ([c] + rest[0]) + "." + tail == [c] + (rest[0] + "." + tail);
    }
  }

  lemma {:induction false} JoinOfSplit(s: string)
    ensures Join(Split(s)) == s
  {
    if s != "" {
      JoinOfSplit(s[1..]);
      var rest := Split(s[1..]);
      if s[0] == '.' {
        JoinCons("", rest);
      } else {
        JoinLonger(s[0], rest);
      }
      assert s == [s[0]] + s[1..];
    }
  }

  lemma {:induction false} SplitOfDotFree(a: string)
    requires '.' !in a
    ensures Split(a) == [a]
  {
    if a != "" {
      SplitOfDotFree(a[1..]);
      assert a == [a[0]] + a[1..];
    }
  }

  lemma {:induction false} SplitAfterDot(a: string, b: string)
    requires '.' !in a
    ensures Split(a + "." + b) == [a] + Split(b)
  {
    var s := a + "." + b;
    if a == "" {
      assert s[1..] == b;
    } else {
      SplitAfterDot(a[1..], b);
      assert s[1..] == a[1..] + "." + b;
      assert a == [a[0]] + a[1..];
    }
  }

  lemma {:induction false} SplitOfJoin(parts: seq<string>)
    requires |parts| >= 1 && DotFree(parts)
    ensures Split(Join(parts)) == parts
  {
    if |parts| == 1 {
      SplitOfDotFree(parts[0]);
    } else {
      SplitOfJoin(parts[1..]);
      SplitAfterDot(parts[0], Join(parts[1..]));
    }
  }

  lemma SplitInjective(a: string, b: string)
    requires Split(a) == Split(b)
    ensures a == b
  {
    JoinOfSplit(a);
    JoinOfSplit(b);
  }

  lemma {:induction false} JoinSnoc(parts: seq<string>, last: string)
    requires |parts| >= 1
    ensures Join(parts + [last]) == Join(parts) + "." + last
  {
    if |parts| > 1 {
      assert (parts + [last])[1..] == parts[1..] + [last];
      JoinSnoc(parts[1..], last);
    } else {
      assert (parts + [last])[1..] == [last];
    }
  }

  lemma SplitSnoc(a: string, last: string)
    requires '.' !in last
    ensures Split(a + "." + last) == Split(a) + [last]
  {
    JoinOfSplit(a);
    JoinSnoc(Split(a), last);
    SplitOfJoin(Split(a) + [last]);
  }

  // ----- matching -----

  /** The recursion of `matchSegments`; the existential is its loop over every split of the key. */
  predicate SegmentsMatch(pattern: seq<string>, key: seq<string>)
    decreases |pattern|
  {
    if |pattern| == 0 then |key| == 0
    else if pattern[0] == MULTI then
      |pattern| == 1 || exists i | 0 <= i <= |key| :: SegmentsMatch(pattern[1..], key[i..])
    else
      |key| > 0 && (pattern[0] == SINGLE || pattern[0] == key[0]) && SegmentsMatch(pattern[1..], key[1..])
  }

  /** What one pattern segment may stand for in section 3.1.3.3 of the AMQP 0-9-1 specification. */
  predicate Takes(segment: string, block: seq<string>) {
    segment == MULTI || (|block| == 1 && (segment == SINGLE || segment == block[0]))
  }

  function Concat(blocks: seq<seq<string>>): seq<string> {
    if blocks == [] then [] else blocks[0] + Concat(blocks[1..])
  }

  /** `key` is cut into consecutive blocks, one for each segment of `pattern`. */
  ghost predicate Cut(pattern: seq<string>, key: seq<string>, blocks: seq<seq<string>>) {
    && |blocks| == |pattern|
    && Concat(blocks) == key
    && forall i :: 0 <= i < |pattern| ==> Takes(pattern[i], blocks[i])
  }

  lemma {:induction false} MatchGivesCut(pattern: seq<string>, key: seq<string>) returns (blocks: seq<seq<string>>)
    requires SegmentsMatch(pattern, key)
    ensures Cut(pattern, key, blocks)
    decreases |pattern|
  {
    if pattern == [] {
      blocks := [];
    } else if pattern[0] == MULTI && |pattern| == 1 {
      blocks := [key];
      assert Concat(blocks[1..]) == [];
    } else {
      var i := 1;
      if pattern[0] == MULTI {
        i :| 0 <= i <= |key| && SegmentsMatch(pattern[1..], key[i..]);
      }
      var rest := MatchGivesCut(pattern[1..], key[i..]);
      blocks := [key[..i]] + rest;
      assert blocks[1..] == rest;
    }
  }

  lemma {:induction false} CutGivesMatch(pattern: seq<string>, key: seq<string>, blocks: seq<seq<string>>)
    requires Cut(pattern, key, blocks)
    ensures SegmentsMatch(pattern, key)
    decreases |pattern|
  {
    if pattern != [] {
      var i := |blocks[0]|;
      assert key[i..] == Concat(blocks[1..]);
      assert Takes(pattern[0], blocks[0]);
      CutGivesMatch(pattern[1..], key[i..], blocks[1..]);
    }
  }

  /** `matchSegments` with its split loop. The answer is stated without the recursion. */
  method MatchSegments(pattern: seq<string>, key: seq<string>) returns (matched: bool)
    ensures matched <==> exists blocks :: Cut(pattern, key, blocks)
    ensures matched == SegmentsMatch(pattern, key)
    decreases |pattern|
  {
    matched := MatchSegmentsFrom(pattern, key);
    if matched {
      var blocks := MatchGivesCut(pattern, key);
    }
    forall blocks | Cut(pattern, key, blocks)
      ensures SegmentsMatch(pattern, key)
    {
      CutGivesMatch(pattern, key, blocks);
    }
  }

  method MatchSegmentsFrom(pattern: seq<string>, key: seq<string>) returns (matched: bool)
    ensures matched == SegmentsMatch(pattern, key)
    decreases |pattern|
  {
    if |pattern| == 0 {
      return |key| == 0;
    }
    var head := pattern[0];
    if head == MULTI {
      var rest := pattern[1..];
      if |rest| == 0 {
        return true;
      }
      for i := 0 to |key| + 1
        invariant forall j :: 0 <= j < i ==> !SegmentsMatch(rest, key[j..])
      {
        var tail := MatchSegmentsFrom(rest, key[i..]);
        if tail {
          return true;
        }
      }
      return false;
    }
    if |key| == 0 {
      return false;
    }
    if head == SINGLE || head == key[0] {
      matched := MatchSegmentsFrom(pattern[1..], key[1..]);
    } else {
      matched := false;
    }
  }

  predicate Matches(routingKey: string, pattern: string) {
    HasWildcard(pattern) && SegmentsMatch(Split(pattern), Split(routingKey))
  }

  /** Some whole segment is `*` or `#`. */
  predicate HasWildSegment(parts: seq<string>) {
    SINGLE in parts || MULTI in parts
  }

  /** The characters of a segment are characters of the string. */
  lemma {:induction false} SegmentOfString(s: string, i: nat, c: char)
    requires i < |Split(s)| && c in Split(s)[i]
    ensures c in s
  {
    if s != "" {
      var rest := Split(s[1..]);
      if s[0] == '.' {
        assert Split(s)[i] == if i == 0 then "" else rest[i - 1];
        SegmentOfString(s[1..], i - 1, c);
      } else if i > 0 {
        assert Split(s)[i] == rest[i];
        SegmentOfString(s[1..], i, c);
      } else if c != s[0] {
        SegmentOfString(s[1..], 0, c);
      }
    }
  }

  lemma {:induction false} WildSegmentShows(k: string)
    requires HasWildSegment(Split(k))
    ensures HasWildcard(k)
  {
    var i :| 0 <= i < |Split(k)| && (Split(k)[i] == SINGLE || Split(k)[i] == MULTI);
    SegmentOfString(k, i, Split(k)[i][0]);
  }

  /** Without a wildcard segment a pattern matches itself alone. */
  lemma {:induction false} PlainSegmentsMatchThemselves(pattern: seq<string>, key: seq<string>)
    requires !HasWildSegment(pattern)
    ensures SegmentsMatch(pattern, key) <==> pattern == key
    decreases |pattern|
  {
    if pattern != [] {
      assert pattern[0] in pattern;
      assert forall x :: x in pattern[1..] ==> x in pattern;
      if key != [] {
        PlainSegmentsMatchThemselves(pattern[1..], key[1..]);
        assert pattern == [pattern[0]] + pattern[1..] && key == [key[0]] + key[1..];
      }
    }
  }

  ghost predicate CutsInto(pattern: string, routingKey: string) {
    exists blocks :: Cut(Split(pattern), Split(routingKey), blocks)
  }

  /** What `Matches` answers, for every pair of strings: a pattern with a wildcard segment matches the keys that
      can be cut along it; one whose wildcard characters are all inside longer segments matches itself; one
      without such characters matches nothing. */
  lemma {:induction false} MatchesExactly(routingKey: string, pattern: string)
    ensures HasWildSegment(Split(pattern)) ==> (Matches(routingKey, pattern) <==> CutsInto(pattern, routingKey))
    ensures !HasWildSegment(Split(pattern)) ==>
              (Matches(routingKey, pattern) <==> pattern == routingKey && ('*' in pattern || '#' in pattern))
  {
    var p, k := Split(pattern), Split(routingKey);
    if SegmentsMatch(p, k) {
      var blocks := MatchGivesCut(p, k);
    }
    forall blocks | Cut(p, k, blocks)
      ensures SegmentsMatch(p, k)
    {
      CutGivesMatch(p, k, blocks);
    }
    if HasWildSegment(p) {
      WildSegmentShows(pattern);
    } else {
      PlainSegmentsMatchThemselves(p, k);
      if p == k {
        SplitInjective(pattern, routingKey);
      }
    }
  }

  // ----- ranking -----

  function CompareSegments(current: int, first: seq<string>, second: seq<string>, idx: nat): int
    decreases |first| - idx
  {
    if idx >= |first| || idx >= |second| then current
    else if first[idx] == second[idx] then CompareSegments(current, first, second, idx + 1)
    else if first[idx] != SINGLE && first[idx] != MULTI then -1
    else if second[idx] != SINGLE && second[idx] != MULTI then 1
    else if first[idx] == MULTI && second[idx] == SINGLE then CompareSegments(1, first, second, idx + 1)
    else if first[idx] == SINGLE && second[idx] == MULTI then CompareSegments(-1, first, second, idx + 1)
    else |second| - |first|
  }

  function CompareParts(a: seq<string>, b: seq<string>): int {
    CompareSegments(|b| - |a|, a, b, 0)
  }

  /** Negative when `a` is the more specific pattern. */
  function Compare(a: string, b: string): int {
    CompareParts(Split(a), Split(b))
  }

  predicate Literal(segment: string) {
    segment != SINGLE && segment != MULTI
  }

  /** Two different literals face each other before any literal faces a wildcard. */
  predicate Clash(a: seq<string>, b: seq<string>) {
    if a == [] || b == [] then false
    else if a[0] == b[0] || (!Literal(a[0]) && !Literal(b[0])) then Clash(a[1..], b[1..])
    else Literal(a[0]) && Literal(b[0])
  }

  lemma {:induction false} CompareFlips(current: int, a: seq<string>, b: seq<string>, idx: nat)
    ensures
      var there, back := CompareSegments(current, a, b, idx), CompareSegments(-current, b, a, idx);
      && (there > 0 ==> back < 0)
      && (idx <= |a| && idx <= |b| ==>
            if Clash(a[idx..], b[idx..]) then there == -1 && back == -1 else back == -there)
    decreases |a| - idx
  {
    if idx < |a| && idx < |b| {
      assert a[idx..][1..] == a[idx + 1..] && b[idx..][1..] == b[idx + 1..];
      CompareFlips(current, a, b, idx + 1);
      CompareFlips(1, a, b, idx + 1);
      CompareFlips(-1, a, b, idx + 1);
    }
  }

  lemma {:induction false} CompareZero(current: int, a: seq<string>, b: seq<string>, idx: nat)
    requires CompareSegments(current, a, b, idx) == 0
    ensures current == 0
    ensures forall i :: idx <= i < |a| && i < |b| ==> a[i] == b[i]
    decreases |a| - idx
  {
    if idx < |a| && idx < |b| {
      if a[idx] == b[idx] {
        CompareZero(current, a, b, idx + 1);
      } else if a[idx] == MULTI {
        CompareZero(1, a, b, idx + 1);
      } else {
        CompareZero(-1, a, b, idx + 1);
      }
    }
  }

  lemma {:induction false} CompareOnCommonPrefix(current: int, a: seq<string>, b: seq<string>, idx: nat)
    requires forall i :: idx <= i < |a| && i < |b| ==> a[i] == b[i]
    ensures CompareSegments(current, a, b, idx) == current
    decreases |a| - idx
  {
    if idx < |a| && idx < |b| {
      CompareOnCommonPrefix(current, a, b, idx + 1);
    }
  }

  /** Only equal names tie, and losing to a name means beating it the other way round. */
  lemma CompareBasics(a: string, b: string)
    ensures Compare(a, b) == 0 <==> a == b
    ensures Compare(a, b) > 0 ==> Compare(b, a) < 0
  {
    CompareFlips(|Split(b)| - |Split(a)|, Split(a), Split(b), 0);
    if Compare(a, b) == 0 {
      CompareZero(|Split(b)| - |Split(a)|, Split(a), Split(b), 0);
      assert Split(a) == Split(b);
      SplitInjective(a, b);
    }
    if a == b {
      CompareOnCommonPrefix(0, Split(a), Split(a), 0);
    }
  }

  lemma PartsFlip(p: seq<string>, q: seq<string>)
    ensures if Clash(p, q) then CompareParts(p, q) == -1 && CompareParts(q, p) == -1
            else CompareParts(q, p) == -CompareParts(p, q)
  {
    assert p[0..] == p && q[0..] == q;
    assert -(|q| - |p|) == |p| - |q|;
    CompareFlips(|q| - |p|, p, q, 0);
  }

  /** The comparator is antisymmetric on a pair exactly when no two different literals face each other. */
  lemma AntisymmetricIffNoClash(a: string, b: string)
    ensures Compare(b, a) == -Compare(a, b) <==> !Clash(Split(a), Split(b))
    ensures Clash(Split(a), Split(b)) ==> Compare(a, b) == -1 && Compare(b, a) == -1
  {
    PartsFlip(Split(a), Split(b));
  }

  /** Position `i` is the first where a literal faces something else. */
  predicate LiteralDecides(a: seq<string>, b: seq<string>, i: nat) {
    && i < |a| && i < |b| && a[i] != b[i] && (Literal(a[i]) || Literal(b[i]))
    && forall j :: 0 <= j < i ==> a[j] == b[j] || (!Literal(a[j]) && !Literal(b[j]))
  }

  /** No literal faces anything else, and `i` is the last position where the patterns differ. */
  predicate WildcardDecides(a: seq<string>, b: seq<string>, i: nat) {
    && i < |a| && i < |b| && a[i] != b[i]
    && (forall j :: 0 <= j < |a| && j < |b| && a[j] != b[j] ==> !Literal(a[j]) && !Literal(b[j]))
    && forall j :: i < j < |a| && j < |b| ==> a[j] == b[j]
  }

  lemma {:induction false} LiteralWins(current: int, a: seq<string>, b: seq<string>, idx: nat, i: nat)
    requires LiteralDecides(a, b, i) && idx <= i
    ensures CompareSegments(current, a, b, idx) == if Literal(a[i]) then -1 else 1
    decreases i - idx
  {
    if idx < i {
      LiteralWins(current, a, b, idx + 1, i);
      LiteralWins(1, a, b, idx + 1, i);
      LiteralWins(-1, a, b, idx + 1, i);
    }
  }

  lemma {:induction false} LastWildcardWins(current: int, a: seq<string>, b: seq<string>, idx: nat, i: nat)
    requires WildcardDecides(a, b, i) && idx <= i
    ensures CompareSegments(current, a, b, idx) == if a[i] == SINGLE then -1 else 1
    decreases i - idx
  {
    if idx < i {
      LastWildcardWins(current, a, b, idx + 1, i);
      LastWildcardWins(1, a, b, idx + 1, i);
      LastWildcardWins(-1, a, b, idx + 1, i);
    } else {
      CompareOnCommonPrefix(if a[i] == SINGLE then -1 else 1, a, b, i + 1);
    }
  }

  /** What `compare` computes, for any two names: the first position where a literal faces something else decides
      for the literal; failing that, the last position where `*` faces `#` decides for `*`; failing that, the
      longer name wins. */
  lemma CompareDecides(a: string, b: string, i: nat)
    ensures LiteralDecides(Split(a), Split(b), i) ==> Compare(a, b) == if Literal(Split(a)[i]) then -1 else 1
    ensures WildcardDecides(Split(a), Split(b), i) ==> Compare(a, b) == if Split(a)[i] == SINGLE then -1 else 1
    ensures SamePrefix(Split(a), Split(b)) ==> Compare(a, b) == |Split(b)| - |Split(a)|
  {
    var p, q := Split(a), Split(b);
    var initial := |q| - |p|;
    if LiteralDecides(p, q, i) {
      LiteralWins(initial, p, q, 0, i);
    }
    if WildcardDecides(p, q, i) {
      LastWildcardWins(initial, p, q, 0, i);
    }
    if SamePrefix(p, q) {
      CompareOnCommonPrefix(initial, p, q, 0);
    }
  }

  predicate SamePrefix(a: seq<string>, b: seq<string>) {
    forall i :: 0 <= i < |a| && i < |b| ==> a[i] == b[i]
  }

  lemma {:induction false} PrefixDecides(p: seq<string>, q: seq<string>, n: nat) returns (i: nat)
    requires n <= |p| && n <= |q|
    ensures p[..n] == q[..n] || LiteralDecides(p[..n], q[..n], i) || WildcardDecides(p[..n], q[..n], i)
  {
    i := 0;
    if n > 0 {
      i := PrefixDecides(p, q, n - 1);
      var a, b, c, d := p[..n], q[..n], p[..n - 1], q[..n - 1];
      assert forall j :: 0 <= j < n - 1 ==> a[j] == c[j] && b[j] == d[j];
      if !LiteralDecides(c, d, i) && a[n - 1] != b[n - 1] {
        i := n - 1;
      }
    }
  }

  /** One of the three cases always applies. */
  lemma SomethingDecides(p: seq<string>, q: seq<string>) returns (i: nat)
    ensures SamePrefix(p, q) || LiteralDecides(p, q, i) || WildcardDecides(p, q, i)
  {
    var n := if |p| < |q| then |p| else |q|;
    i := PrefixDecides(p, q, n);
    assert forall j :: 0 <= j < n ==> p[..n][j] == p[j] && q[..n][j] == q[j];
  }

  // ----- the order on patterns whose `#` is last -----

  ghost predicate HashLast(p: seq<string>) {
    forall i :: 0 <= i < |p| - 1 ==> p[i] != MULTI
  }

  /** Literal before `*`, `*` before `#`, anything before the end of the pattern. */
  function Rank(p: seq<string>): nat {
    if p == [] then 3 else if p[0] == MULTI then 2 else if p[0] == SINGLE then 1 else 0
  }

  /** Lexicographic by rank; different literals are incomparable. */
  predicate Less(a: seq<string>, b: seq<string>)
    decreases |a|
  {
    if Rank(a) != Rank(b) then Rank(a) < Rank(b)
    else a != [] && a[0] == b[0] && Less(a[1..], b[1..])
  }

  lemma {:induction false} LessTransitive(a: seq<string>, b: seq<string>, c: seq<string>)
    requires Less(a, b) && Less(b, c)
    ensures Less(a, c)
    decreases |a|
  {
    if Rank(a) == Rank(b) == Rank(c) {
      LessTransitive(a[1..], b[1..], c[1..]);
    }
  }

  lemma {:induction false} LessAsymmetric(a: seq<string>, b: seq<string>)
    requires Less(a, b)
    ensures !Less(b, a)
    decreases |a|
  {
    if Rank(a) == Rank(b) {
      LessAsymmetric(a[1..], b[1..]);
    }
  }

  /** On patterns that match one key, the comparator is the rank order, and it decides every pair. */
  lemma {:induction false} CompareIsRankOrder(a: seq<string>, b: seq<string>, idx: nat, key: seq<string>)
    requires HashLast(a) && HashLast(b)
    requires idx <= |a| && idx <= |b|
    requires SegmentsMatch(a[idx..], key) && SegmentsMatch(b[idx..], key)
    ensures
      var c := CompareSegments(|b| - |a|, a, b, idx);
      && (c < 0 <==> Less(a[idx..], b[idx..]))
      && (c > 0 <==> Less(b[idx..], a[idx..]))
    decreases |a| - idx
  {
    if idx < |a| && idx < |b| {
      assert a[idx..][1..] == a[idx + 1..] && b[idx..][1..] == b[idx + 1..];
      if a[idx] == b[idx] && a[idx] != MULTI {
        CompareIsRankOrder(a, b, idx + 1, key[1..]);
      } else if a[idx] != b[idx] && a[idx] == MULTI {
        assert idx + 1 == |a|;
      } else if a[idx] != b[idx] && b[idx] == MULTI {
        assert idx + 1 == |b|;
      }
    }
  }

  lemma CompareOfCandidates(a: string, b: string, name: string)
    requires HashLast(Split(a)) && HashLast(Split(b))
    requires Matches(name, a) && Matches(name, b)
    ensures Compare(a, b) < 0 <==> Less(Split(a), Split(b))
    ensures Compare(a, b) > 0 <==> Less(Split(b), Split(a))
  {
    assert Split(a)[0..] == Split(a) && Split(b)[0..] == Split(b);
    CompareIsRankOrder(Split(a), Split(b), 0, Split(name));
  }

  /** `compare` is a strict total order on the candidates for one name. */
  lemma StrictTotalOrder(a: string, b: string, c: string, name: string)
    requires HashLast(Split(a)) && HashLast(Split(b)) && HashLast(Split(c))
    requires Matches(name, a) && Matches(name, b) && Matches(name, c)
    ensures !(Compare(a, a) < 0)
    ensures Compare(a, b) < 0 && Compare(b, c) < 0 ==> Compare(a, c) < 0
    ensures a != b ==> (Compare(a, b) < 0 <==> !(Compare(b, a) < 0))
  {
    CompareBasics(a, a);
    CompareBasics(a, b);
    CompareBasics(b, a);
    CompareOfCandidates(a, b, name);
    CompareOfCandidates(b, c, name);
    CompareOfCandidates(a, c, name);
    CompareOfCandidates(b, a, name);
    if Less(Split(a), Split(b)) {
      LessAsymmetric(Split(a), Split(b));
      if Less(Split(b), Split(c)) {
        LessTransitive(Split(a), Split(b), Split(c));
      }
    }
  }

  // ----- choosing the most specific candidate -----

  function Champion(best: string, rest: seq<string>): string
    decreases |rest|
  {
    if rest == [] then best
    else Champion(if Compare(rest[0], best) < 0 then rest[0] else best, rest[1..])
  }

  function MostSpecificOf(candidates: seq<string>): string {
    if candidates == [] then "" else Champion(candidates[0], candidates[1..])
  }

  method MostSpecific(candidates: seq<string>) returns (best: string)
    ensures best == MostSpecificOf(candidates)
    ensures if candidates == [] then best == "" else best in candidates
  {
    if |candidates| == 0 {
      return "";
    }
    best := candidates[0];
    for i := 1 to |candidates|
      invariant best in candidates
      invariant Champion(best, candidates[i..]) == MostSpecificOf(candidates)
    {
      assert candidates[i..][1..] == candidates[i + 1..];
      if Compare(candidates[i], best) < 0 {
        best := candidates[i];
      }
    }
  }

  /** `winner` beats every other candidate. */
  ghost predicate Dominates(winner: string, candidates: seq<string>) {
    winner in candidates && forall c :: c in candidates && c != winner ==> Compare(c, winner) > 0
  }

  ghost predicate OrderFree(candidates: seq<string>) {
    forall other :: multiset(other) == multiset(candidates) ==> MostSpecificOf(other) == MostSpecificOf(candidates)
  }

  lemma {:induction false} ChampionWhenDominant(best: string, rest: seq<string>, winner: string)
    requires best == winner || winner in rest
    requires best != winner ==> Compare(best, winner) > 0
    requires forall c :: c in rest && c != winner ==> Compare(c, winner) > 0
    ensures Champion(best, rest) == winner
    decreases |rest|
  {
    if rest != [] {
      CompareBasics(best, winner);
      CompareBasics(winner, winner);
      assert rest[0] in rest;
      var next := if Compare(rest[0], best) < 0 then rest[0] else best;
      assert forall c :: c in rest[1..] ==> c in rest;
      assert winner in rest ==> winner == rest[0] || winner in rest[1..];
      ChampionWhenDominant(next, rest[1..], winner);
    }
  }

  lemma MostSpecificWhenDominant(candidates: seq<string>, winner: string)
    requires Dominates(winner, candidates)
    ensures MostSpecificOf(candidates) == winner
  {
    assert candidates[0] in candidates;
    assert forall c :: c in candidates[1..] ==> c in candidates;
    assert winner == candidates[0] || winner in candidates[1..];
    ChampionWhenDominant(candidates[0], candidates[1..], winner);
  }

  lemma {:induction false} ChampionSnoc(best: string, rest: seq<string>, last: string)
    ensures
      var before := Champion(best, rest);
      Champion(best, rest + [last]) == if Compare(last, before) < 0 then last else before
    decreases |rest|
  {
    if rest != [] {
      assert (rest + [last])[1..] == rest[1..] + [last];
      ChampionSnoc(if Compare(rest[0], best) < 0 then rest[0] else best, rest[1..], last);
    } else {
      assert (rest + [last])[1..] == [];
      assert rest + [last] == [last];
    }
  }

  lemma {:induction false} ChampionIsMember(best: string, rest: seq<string>)
    ensures Champion(best, rest) == best || Champion(best, rest) in rest
    decreases |rest|
  {
    if rest != [] {
      ChampionIsMember(if Compare(rest[0], best) < 0 then rest[0] else best, rest[1..]);
    }
  }

  lemma MovedLast(s: seq<string>, i: nat)
    requires i < |s|
    ensures multiset(s[..i] + s[i + 1..] + [s[i]]) == multiset(s)
  {
    assert s == s[..i] + [s[i]] + s[i + 1..];
  }

  /** A candidate that loses even when it comes last loses to the winner. */
  lemma LastLoses(rest: seq<string>, c: string, winner: string)
    requires rest != [] && MostSpecificOf(rest + [c]) == winner && c != winner
    ensures Compare(c, winner) > 0
  {
    assert (rest + [c])[0] == rest[0] && (rest + [c])[1..] == rest[1..] + [c];
    ChampionSnoc(rest[0], rest[1..], c);
    CompareBasics(c, winner);
  }

  lemma OrderFreeGivesDominant(candidates: seq<string>)
    requires candidates != []
    requires OrderFree(candidates)
    ensures Dominates(MostSpecificOf(candidates), candidates)
  {
    var w := MostSpecificOf(candidates);
    ChampionIsMember(candidates[0], candidates[1..]);
    forall c | c in candidates && c != w
      ensures Compare(c, w) > 0
    {
      var i :| 0 <= i < |candidates| && candidates[i] == c;
      var rest := candidates[..i] + candidates[i + 1..];
      MovedLast(candidates, i);
      assert |candidates| > 1;
      LastLoses(rest, c, w);
    }
  }

  /** For any patterns at all: the choice is independent of the key order exactly when one
      candidate beats every other. */
  lemma OrderFreeIffDominated(candidates: seq<string>)
    requires candidates != []
    ensures OrderFree(candidates) <==> exists w :: Dominates(w, candidates)
  {
    if OrderFree(candidates) {
      OrderFreeGivesDominant(candidates);
    }
    if w :| Dominates(w, candidates) {
      forall other | multiset(other) == multiset(candidates)
        ensures MostSpecificOf(other) == MostSpecificOf(candidates)
      {
        SameMembers(other, candidates);
        MostSpecificWhenDominant(candidates, w);
        MostSpecificWhenDominant(other, w);
      }
    }
  }

  lemma SameMembers(a: seq<string>, b: seq<string>)
    requires multiset(a) == multiset(b)
    ensures forall x :: x in a <==> x in b
  {
    forall x
      ensures x in a <==> x in b
    {
      assert x in a <==> x in multiset(a);
      assert x in b <==> x in multiset(b);
    }
  }

  ghost predicate CandidatesFor(name: string, candidates: seq<string>) {
    forall c :: c in candidates ==> Matches(name, c) && HashLast(Split(c))
  }

  lemma {:induction false} ChampionIsLeast(name: string, best: string, rest: seq<string>)
    requires CandidatesFor(name, [best] + rest)
    ensures forall c :: c in [best] + rest && c != Champion(best, rest) ==> Compare(c, Champion(best, rest)) > 0
    decreases |rest|
  {
    var w := Champion(best, rest);
    ChampionIsMember(best, rest);
    if rest != [] {
      assert rest[0] in [best] + rest && best in [best] + rest;
      var next, other := rest[0], best;
      if !(Compare(rest[0], best) < 0) {
        next, other := best, rest[0];
      }
      assert forall c :: c in [next] + rest[1..] ==> c in [best] + rest;
      ChampionIsLeast(name, next, rest[1..]);
      CompareBasics(rest[0], best);
      CompareBasics(best, rest[0]);
      assert w in [best] + rest && Matches(name, w) && HashLast(Split(w));
      StrictTotalOrder(w, next, other, name);
      CompareBasics(next, w);
      CompareBasics(other, w);
      CompareBasics(w, other);
      CompareOfCandidates(next, w, name);
      CompareOfCandidates(w, next, name);
      CompareOfCandidates(other, w, name);
      CompareOfCandidates(w, other, name);
      CompareOfCandidates(next, other, name);
      CompareOfCandidates(other, next, name);
      forall c | c in [best] + rest && c != w
        ensures Compare(c, w) > 0
      {
        assert next in [next] + rest[1..];
        assert c == other || c in [next] + rest[1..];
      }
    }
  }

  lemma CandidatesHaveDominant(name: string, candidates: seq<string>)
    requires candidates != []
    requires CandidatesFor(name, candidates)
    ensures Dominates(MostSpecificOf(candidates), candidates)
  {
    assert candidates == [candidates[0]] + candidates[1..];
    ChampionIsLeast(name, candidates[0], candidates[1..]);
    ChampionIsMember(candidates[0], candidates[1..]);
  }

  // ----- resolution -----

  function Filter(name: string, keys: seq<string>): (kept: seq<string>)
    ensures forall k :: k in kept <==> k in keys && Matches(name, k)
  {
    if keys == [] then []
    else
      var rest := Filter(name, keys[1..]);
      if Matches(name, keys[0]) then [keys[0]] + rest else rest
  }

  function ResolveOf(name: string, keys: seq<string>): string {
    MostSpecificOf(Filter(name, keys))
  }

  lemma {:induction false} FilterSnoc(name: string, keys: seq<string>, last: string)
    ensures Filter(name, keys + [last]) == Filter(name, keys) + if Matches(name, last) then [last] else []
  {
    if keys == [] {
      assert keys + [last] == [last];
    } else {
      assert (keys + [last])[1..] == keys[1..] + [last];
      FilterSnoc(name, keys[1..], last);
    }
  }

  /** `Resolve` (and the identical `resolvePattern` of the rabbit registry). */
  method Resolve(name: string, keys: seq<string>) returns (pattern: string)
    ensures pattern == ResolveOf(name, keys)
    ensures pattern == "" <==> forall k :: k in keys ==> !Matches(name, k)
    ensures pattern != "" ==> pattern in keys && Matches(name, pattern)
    ensures pattern != "" ==> CutsInto(pattern, name)
    ensures pattern == "" ==> forall k :: k in keys && HasWildSegment(Split(k)) ==> !CutsInto(k, name)
  {
    var candidates: seq<string> := [];
    for i := 0 to |keys|
      invariant candidates == Filter(name, keys[..i])
    {
      assert keys[..i + 1] == keys[..i] + [keys[i]];
      FilterSnoc(name, keys[..i], keys[i]);
      var hit := false;
      if HasWildcard(keys[i]) {
        hit := MatchSegments(Split(keys[i]), Split(name));
      }
      if hit {
        candidates := candidates + [keys[i]];
      }
    }
    assert keys[..|keys|] == keys;
    pattern := MostSpecific(candidates);
    assert forall k :: k in candidates ==> Matches(name, k);
    if pattern != "" {
      var blocks := MatchGivesCut(Split(pattern), Split(name));
    }
    forall k | k in keys && HasWildSegment(Split(k))
      ensures Matches(name, k) <==> CutsInto(k, name)
    {
      MatchesExactly(name, k);
    }
  }

  /** Every key that matches `name` keeps `#` for its last segment. */
  ghost predicate MatchingKeysHashLast(name: string, keys: seq<string>) {
    forall k :: k in keys && Matches(name, k) ==> HashLast(Split(k))
  }

  /** The resolved pattern depends on which keys there are, not on the order Go's map yields them. */
  lemma ResolutionIsOrderFree(name: string, keys: seq<string>, other: seq<string>)
    requires forall k :: k in keys <==> k in other
    requires MatchingKeysHashLast(name, keys)
    ensures ResolveOf(name, keys) == ResolveOf(name, other)
  {
    var a, b := Filter(name, keys), Filter(name, other);
    assert forall k :: k in a <==> k in b;
    assert b != [] ==> b[0] in b;
    if a != [] {
      assert a[0] in b;
      CandidatesHaveDominant(name, a);
      assert Dominates(MostSpecificOf(a), b);
      MostSpecificWhenDominant(b, MostSpecificOf(a));
    }
  }

  // ----- where the ranking falls short of its description -----

  lemma SplitExamples()
    ensures Split("#") == ["#"] && Split("*") == ["*"] && Split("a") == ["a"]
    ensures Split("#.b") == ["#", "b"] && Split("a.b") == ["a", "b"]
    ensures Split("*.#") == ["*", "#"] && Split("#.*") == ["#", "*"]
  {
    SplitOfDotFree("#");
    SplitOfDotFree("*");
    SplitOfDotFree("a");
    SplitSnoc("#", "b");
    SplitSnoc("a", "b");
    SplitSnoc("*", "#");
    SplitSnoc("#", "*");
  }

  lemma ClashingPairMatches()
    ensures Matches("a.b", "#.a.b") && Matches("a.b", "#.b")
  {
    SplitExamples();
    SplitAfterDot("#", "a.b");
    assert SegmentsMatch([], []);
    assert ["a", "b"][1..] == ["b"] && ["b"][1..] == [];
    assert SegmentsMatch(["b"], ["b"]);
    assert SegmentsMatch(["a", "b"], ["a", "b"]);
    assert ["#", "a", "b"][1..] == ["a", "b"] && ["#", "b"][1..] == ["b"];
    assert ["a", "b"][0..] == ["a", "b"];
  }

  lemma ClashingPairCompares()
    ensures Compare("#.a.b", "#.b") < 0 && Compare("#.b", "#.a.b") < 0
  {
    SplitExamples();
    SplitAfterDot("#", "a.b");
    var p, q := ["#", "a", "b"], ["#", "b"];
    assert CompareSegments(-1, p, q, 1) == -1 && CompareSegments(1, q, p, 1) == -1;
  }

  lemma KnockOutOfTwo(p: string, q: string)
    ensures MostSpecificOf([p, q]) == if Compare(q, p) < 0 then q else p
  {
    var best := if Compare(q, p) < 0 then q else p;
    assert [p, q][1..] == [q] && [q][1..] == [];
    assert Champion(p, [q]) == Champion(best, []);
  }

  /** Two patterns that match one key and each beat the other: the first listed loses. */
  lemma ClashingPair()
    ensures Matches("a.b", "#.a.b") && Matches("a.b", "#.b")
    ensures Compare("#.a.b", "#.b") < 0 && Compare("#.b", "#.a.b") < 0
    ensures MostSpecificOf(["#.a.b", "#.b"]) == "#.b" && MostSpecificOf(["#.b", "#.a.b"]) == "#.a.b"
  {
    ClashingPairMatches();
    ClashingPairCompares();
    KnockOutOfTwo("#.a.b", "#.b");
    KnockOutOfTwo("#.b", "#.a.b");
  }

  /** Three patterns that match one key, none of them clashing, and each beaten by the next. */
  lemma BeatingCycle()
    ensures Matches("a", "*.#") && Matches("a", "*") && Matches("a", "#.*")
    ensures Compare("*.#", "*") < 0 && Compare("*", "#.*") < 0 && Compare("#.*", "*.#") < 0
    ensures MostSpecificOf(["*.#", "*", "#.*"]) == "#.*" && MostSpecificOf(["*", "#.*", "*.#"]) == "*.#"
  {
    SplitExamples();
    assert SegmentsMatch([], []) && SegmentsMatch(["#"], []);
    assert ["a"][1..] == [] && ["a"][0..] == ["a"] && ["*"][1..] == [];
    assert SegmentsMatch(["*"], ["a"]);
    assert ["#", "*"][1..] == ["*"] && ["*", "#"][1..] == ["#"];
    assert CompareParts(["*", "#"], ["*"]) == -1;
    assert CompareParts(["*"], ["#", "*"]) == -1;
    assert CompareParts(["#", "*"], ["*", "#"]) == -1;
    CompareBasics("#.*", "*");
    CompareBasics("*", "*.#");
    AntisymmetricIffNoClash("*", "#.*");
    AntisymmetricIffNoClash("*.#", "*");
    var beaten := ["*", "#.*"];
    assert ["*.#", "*", "#.*"][1..] == beaten && beaten[1..] == ["#.*"];
    var cycled := ["#.*", "*.#"];
    assert ["*", "#.*", "*.#"][1..] == cycled && cycled[1..] == ["*.#"];
  }

  lemma SplitThree(x: string, y: string, z: string)
    requires '.' !in x && '.' !in y && '.' !in z
    ensures Split(x + "." + y + "." + z) == [x, y, z]
  {
    SplitOfDotFree(x);
    SplitSnoc(x, y);
    SplitSnoc(x + "." + y, z);
  }

  lemma MatchThree(p: seq<string>, k: seq<string>)
    requires |p| == |k| == 3
    requires forall i :: 0 <= i < 3 ==> p[i] != MULTI && (p[i] == SINGLE || p[i] == k[i])
    ensures SegmentsMatch(p, k)
  {
    assert p[1..][1..] == [p[2]] && k[1..][1..] == [k[2]];
    assert SegmentsMatch([p[2]], [k[2]]);
    assert SegmentsMatch(p[1..], k[1..]);
  }

  /** The pattern with more wildcards can win: the first differing segment decides. */
  lemma FewerWildcardsCanLose()
    ensures Matches("a.b.c", "a.*.*") && Matches("a.b.c", "*.b.c")
    ensures Compare("a.*.*", "*.b.c") < 0
  {
    SplitThree("a", "b", "c");
    SplitThree("a", "*", "*");
    SplitThree("*", "b", "c");
    assert "a" + "." + "b" + "." + "c" == "a.b.c";
    assert "a" + "." + "*" + "." + "*" == "a.*.*";
    assert "*" + "." + "b" + "." + "c" == "*.b.c";
    MatchThree(["a", "*", "*"], ["a", "b", "c"]);
    MatchThree(["*", "b", "c"], ["a", "b", "c"]);
    assert CompareParts(["a", "*", "*"], ["*", "b", "c"]) == -1;
    assert "a.*.*"[2] == '*' && "*.b.c"[0] == '*';
  }

  // ----- specificity against meaning -----

  /** A key matched by `p`: `*` becomes `fill`, a last `#` becomes `n` copies of `fill`. */
  function SampleKey(p: seq<string>, n: nat, fill: string): seq<string> {
    if p == [] then []
    else if p[0] == MULTI then seq(n, _ => fill) + SampleKey(p[1..], n, fill)
    else [if p[0] == SINGLE then fill else p[0]] + SampleKey(p[1..], n, fill)
  }

  lemma {:induction false} SampleKeyMatches(p: seq<string>, n: nat, fill: string)
    requires HashLast(p)
    ensures SegmentsMatch(p, SampleKey(p, n, fill))
  {
    if p != [] && p[0] != MULTI {
      assert SampleKey(p, n, fill)[1..] == SampleKey(p[1..], n, fill);
      SampleKeyMatches(p[1..], n, fill);
    }
  }

  lemma DotFreeConcat(a: seq<string>, b: seq<string>)
    requires DotFree(a) && DotFree(b)
    ensures DotFree(a + b)
  {
  }

  lemma {:induction false} SampleKeyDotFree(p: seq<string>, n: nat, fill: string)
    requires '.' !in fill
    requires DotFree(p)
    ensures DotFree(SampleKey(p, n, fill))
  {
    if p != [] {
      SampleKeyDotFree(p[1..], n, fill);
      var head := if p[0] == MULTI then seq(n, _ => fill) else [if p[0] == SINGLE then fill else p[0]];
      assert forall i :: 0 <= i < |head| ==> head[i] == fill || head[i] == p[0];
      DotFreeConcat(head, SampleKey(p[1..], n, fill));
      assert SampleKey(p, n, fill) == head + SampleKey(p[1..], n, fill);
    }
  }

  lemma {:induction false} SampleKeyNonEmpty(p: seq<string>, n: nat, fill: string)
    requires p != []
    requires p == [MULTI] ==> n >= 1
    requires HashLast(p)
    ensures SampleKey(p, n, fill) != []
  {
    if p[0] == MULTI {
      assert |SampleKey(p, n, fill)| >= n;
    }
  }

  function Longer(q: seq<string>): (s: string)
    ensures s != "" && forall i :: 0 <= i < |s| ==> s[i] == 'z'
    ensures forall i :: 0 <= i < |q| ==> |q[i]| < |s|
  {
    if q == [] then "z" else
      var rest := Longer(q[1..]);
      if |q[0]| < |rest| then rest else seq(|q[0]| + 1, _ => 'z')
  }

  lemma {:induction false} MatchesEmptyKey(q: seq<string>)
    requires HashLast(q) && SegmentsMatch(q, [])
    ensures q == [] || q == [MULTI]
  {
  }

  /** A pattern that matches every sample of `#` alone is `#`. */
  lemma HashSubsumed(q: seq<string>, fill: string)
    requires HashLast(q)
    requires SegmentsMatch(q, SampleKey([MULTI], 0, fill)) && SegmentsMatch(q, SampleKey([MULTI], 1, fill))
    ensures q == [MULTI]
  {
    assert SampleKey([MULTI], 0, fill) == [] && |SampleKey([MULTI], 1, fill)| == 1;
    MatchesEmptyKey(q);
  }

  /** If `q` matches every sample of `p`, then `p` ranks before `q`, unless `q` is `p` or only adds a `#`. */
  lemma {:induction false} SubsumedRanksFirst(p: seq<string>, q: seq<string>, fill: string)
    requires HashLast(p) && HashLast(q)
    requires fill !in q && fill != SINGLE && fill != MULTI
    requires forall n: nat :: SegmentsMatch(q, SampleKey(p, n, fill))
    ensures p == q || q == p + [MULTI] || Less(p, q)
    decreases |p|
  {
    assert SegmentsMatch(q, SampleKey(p, 0, fill)) && SegmentsMatch(q, SampleKey(p, 1, fill));
    if p == [] {
      MatchesEmptyKey(q);
    } else if p[0] == MULTI {
      assert p == [MULTI];
      HashSubsumed(q, fill);
    } else if q != [] && Rank(p) >= Rank(q) {
      var key := SampleKey(p, 1, fill);
      assert q[0] in q;
      assert key[0] == if p[0] == SINGLE then fill else p[0];
      assert q[0] == p[0];
      forall n: nat
        ensures SegmentsMatch(q[1..], SampleKey(p[1..], n, fill))
      {
        assert SegmentsMatch(q, SampleKey(p, n, fill));
        assert SampleKey(p, n, fill)[1..] == SampleKey(p[1..], n, fill);
      }
      SubsumedRanksFirst(p[1..], q[1..], fill);
      assert p == [p[0]] + p[1..] && q == [q[0]] + q[1..];
    }
  }

  lemma SubsumedComparesFirst(p: seq<string>, q: seq<string>, fill: string)
    requires HashLast(p) && HashLast(q)
    requires fill !in q && fill != SINGLE && fill != MULTI
    requires forall n: nat :: SegmentsMatch(q, SampleKey(p, n, fill))
    requires p != q && q != p + [MULTI]
    ensures CompareParts(p, q) < 0
  {
    SubsumedRanksFirst(p, q, fill);
    SampleKeyMatches(p, 1, fill);
    assert p[0..] == p && q[0..] == q;
    CompareIsRankOrder(p, q, 0, SampleKey(p, 1, fill));
  }

  /** `#` alone: the only other pattern that covers every real key is `*.#`. */
  lemma CoversEverything(q: seq<string>, fill: string)
    requires HashLast(q) && q != [MULTI]
    requires fill !in q && fill != SINGLE && fill != MULTI
    requires SegmentsMatch(q, [fill]) && SegmentsMatch(q, [fill, fill])
    ensures q == [SINGLE, MULTI]
  {
    assert [fill][1..] == [] && [fill, fill][1..] == [fill];
    assert q != [] && q[0] in q && q[0] == SINGLE;
    assert q == [SINGLE] + q[1..];
    MatchesEmptyKey(q[1..]);
  }

  ghost predicate CoveredBy(a: string, b: string) {
    forall routingKey :: Matches(routingKey, a) ==> Matches(routingKey, b)
  }

  lemma SampleKeyCovered(a: string, b: string, n: nat, fill: string)
    requires HasWildcard(a) && HashLast(Split(a)) && CoveredBy(a, b)
    requires '.' !in fill
    requires Split(a) == [MULTI] ==> n >= 1
    ensures SegmentsMatch(Split(b), SampleKey(Split(a), n, fill))
  {
    var p := Split(a);
    var key := SampleKey(p, n, fill);
    SampleKeyMatches(p, n, fill);
    SampleKeyDotFree(p, n, fill);
    SampleKeyNonEmpty(p, n, fill);
    SplitOfJoin(key);
    assert Matches(Join(key), a);
  }

  /** A segment that occurs neither in `q` nor among the wildcards. */
  lemma FreshSegment(q: seq<string>) returns (fill: string)
    ensures fill !in q && fill != SINGLE && fill != MULTI && '.' !in fill
  {
    var all := [SINGLE, MULTI] + q;
    fill := Longer(all);
    assert all[0] == SINGLE && all[1] == MULTI;
    forall i | 0 <= i < |q|
      ensures q[i] != fill
    {
      assert q[i] == all[i + 2];
    }
  }

  lemma HashAgainstCover(b: string)
    requires b != "#" && HashLast(Split(b)) && CoveredBy("#", b)
    ensures b == "*.#" && Compare("#", b) > 0
  {
    var fill := FreshSegment(Split(b));
    assert Split("#") == [MULTI] by {
      SplitOfDotFree("#");
    }
    SampleKeyCovered("#", b, 1, fill);
    SampleKeyCovered("#", b, 2, fill);
    assert SampleKey([MULTI], 1, fill) == [fill] && SampleKey([MULTI], 2, fill) == [fill, fill];
    assert Split(b) != [MULTI] by {
      if Split(b) == [MULTI] { SplitInjective("#", b); }
    }
    CoversEverything(Split(b), fill);
    assert b == "*.#" by {
      SplitExamples();
      SplitInjective(b, "*.#");
    }
    assert CompareParts([MULTI], [SINGLE, MULTI]) == 1;
  }

  lemma OthersAgainstCover(a: string, b: string)
    requires a != b && a != "#" && HasWildcard(a) && b != a + ".#"
    requires HashLast(Split(a)) && HashLast(Split(b))
    requires CoveredBy(a, b)
    ensures Compare(a, b) < 0
  {
    var p, q := Split(a), Split(b);
    var fill := FreshSegment(q);
    assert q != p by {
      if q == p { SplitInjective(a, b); }
    }
    assert q != p + [MULTI] by {
      SplitSnoc(a, "#");
      assert a + "." + "#" == a + ".#";
      if q == p + [MULTI] { SplitInjective(a + ".#", b); }
    }
    assert p != [MULTI] by {
      SplitOfDotFree("#");
      if p == [MULTI] { SplitInjective(a, "#"); }
    }
    forall n: nat
      ensures SegmentsMatch(q, SampleKey(p, n, fill))
    {
      SampleKeyCovered(a, b, n, fill);
    }
    SubsumedComparesFirst(p, q, fill);
  }

  /** A pattern whose keys are all covered by another ranks before it, with exactly two exceptions:
      `p` against `p.#`, and `#` against `*.#`. */
  lemma SpecificityRespectsMeaning(a: string, b: string)
    requires a != b && HasWildcard(a)
    requires HashLast(Split(a)) && HashLast(Split(b))
    requires CoveredBy(a, b)
    ensures Compare(a, b) < 0 <==> !(b == a + ".#") && !(a == "#" && b == "*.#")
  {
    if b == a + ".#" {
      SplitSnoc(a, "#");
      assert a + "." + "#" == b;
      CompareOnCommonPrefix(1, Split(a), Split(b), 0);
    } else if a == "#" {
      HashAgainstCover(b);
    } else {
      OthersAgainstCover(a, b);
    }
  }
}
