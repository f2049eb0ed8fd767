/** The parts of Go's `strings` and `fmt` packages that the aggregator uses,
    over strings whose characters stand for the bytes of a Go string. */
module GoStrings {
  import opened Wrappers

  /** `sub` occurs in `s` starting at position `i`. */
  predicate IsAt(s: string, sub: string, i: nat) {
    i + |sub| <= |s| && s[i..i + |sub|] == sub
  }

  /** strings.Index: the first position where `sub` occurs, None for -1. */
  function IndexOf(s: string, sub: string): (r: Option<nat>)
    ensures r.Some? ==> IsAt(s, sub, r.value)
    ensures r.Some? ==> forall j :: 0 <= j < r.value ==> !IsAt(s, sub, j)
    ensures r.None? ==> forall j :: 0 <= j <= |s| ==> !IsAt(s, sub, j)
    decreases |s|
  {
    if |s| < |sub| then None
    else if s[..|sub|] == sub then Some(0)
    else
      assert forall j :: 1 <= j <= |s| ==> (IsAt(s, sub, j) <==> IsAt(s[1..], sub, j - 1));
      match IndexOf(s[1..], sub)
      case None => None
      case Some(k) => Some(k + 1)
  }

  /** strings.Contains */
  predicate Contains(s: string, sub: string) {
    IndexOf(s, sub).Some?
  }

  /** strings.HasPrefix */
  predicate HasPrefix(s: string, prefix: string) {
    |prefix| <= |s| && s[..|prefix|] == prefix
  }

  /** strings.HasSuffix */
  predicate HasSuffix(s: string, suffix: string) {
    |suffix| <= |s| && s[|s| - |suffix|..] == suffix
  }

  /** strings.Split for a non-empty separator: the pieces of `s` around each
      non-overlapping occurrence of `sep`, scanning left to right. */
  function Split(s: string, sep: string): (parts: seq<string>)
    requires |sep| > 0
    ensures |parts| >= 1
    decreases |s|
  {
    match IndexOf(s, sep)
    case None => [s]
    case Some(i) => [s[..i]] + Split(s[i + |sep|..], sep)
  }

  /** strings.Join (and bytes.Join). */
  function Join(parts: seq<string>, sep: string): string
  {
    if |parts| == 0 then ""
    else if |parts| == 1 then parts[0]
    else parts[0] + sep + Join(parts[1..], sep)
  }

  /** Join of a part followed by at least one more. */
  lemma JoinCons(p: string, rest: seq<string>, sep: string)
    requires |rest| > 0
    ensures Join([p] + rest, sep) == p + sep + Join(rest, sep)
  {
    assert ([p] + rest)[1..] == rest;
  }

  /** Join of parts followed by one more part. */
  lemma {:induction false} JoinSnoc(parts: seq<string>, x: string, sep: string)
    requires |parts| > 0
    ensures Join(parts + [x], sep) == Join(parts, sep) + sep + x
  {
    if |parts| == 1 {
      assert parts + [x] == [parts[0]] + [x];
      JoinCons(parts[0], [x], sep);
    } else {
      JoinSnoc(parts[1..], x, sep);
      assert parts + [x] == [parts[0]] + (parts[1..] + [x]);
      JoinCons(parts[0], parts[1..] + [x], sep);
      assert parts == [parts[0]] + parts[1..];
      JoinCons(parts[0], parts[1..], sep);
    }
  }

  /** strings.Replace(s, old, new, -1) for a non-empty `old`. */
  function Replace(s: string, target: string, replacement: string): string
    requires |target| > 0
  {
    Join(Split(s, target), replacement)
  }

  /** The ASCII part of strings.ToLower. */
  function LowerChar(c: char): char {
    if 'A' <= c <= 'Z' then (c as int + 32) as char else c
  }

  function ToLower(s: string): (r: string)
    ensures |r| == |s| && forall i :: 0 <= i < |s| ==> r[i] == LowerChar(s[i])
    ensures forall i :: 0 <= i < |r| ==> !('A' <= r[i] <= 'Z')
  {
    if s == [] then [] else [LowerChar(s[0])] + ToLower(s[1..])
  }

  predicate IsDigit(c: char) { '0' <= c <= '9' }

  /** The decimal digits of a natural number (no sign, no leading zeros). */
  function NatDigits(n: nat): (r: string)
    ensures |r| > 0 && forall i :: 0 <= i < |r| ==> IsDigit(r[i])
    decreases n
  {
    if n < 10 then [('0' as int + n) as char]
    else NatDigits(n / 10) + [('0' as int + n % 10) as char]
  }

  /** fmt.Sprintf("%d", n). */
  function DecimalString(n: int): string {
    if n < 0 then "-" + NatDigits(-n) else NatDigits(n)
  }

  /** The value of a non-empty string of decimal digits. */
  function DigitsValue(s: string): nat
    requires forall i :: 0 <= i < |s| ==> IsDigit(s[i])
  {
    if |s| == 0 then 0
    else
      assert IsDigit(s[|s| - 1]);
      10 * DigitsValue(s[..|s| - 1]) + (s[|s| - 1] as int - '0' as int)
  }

  /** strconv.Atoi restricted to an optional minus sign followed by digits. */
  function ParseDecimal(s: string): Option<int> {
    if |s| > 0 && s[0] == '-' then
      if |s| > 1 && forall i :: 1 <= i < |s| ==> IsDigit(s[i]) then Some(-(DigitsValue(s[1..]) as int)) else None
    else if |s| > 0 && forall i :: 0 <= i < |s| ==> IsDigit(s[i]) then Some(DigitsValue(s))
    else None
  }

  // ---------------------------------------------------------------------
  // Lemmas

  lemma {:induction false} DigitsRoundTrip(n: nat)
    ensures DigitsValue(NatDigits(n)) == n
    decreases n
  {
    if n >= 10 {
      var d := NatDigits(n / 10) + [('0' as int + n % 10) as char];
      assert d[..|d| - 1] == NatDigits(n / 10);
      DigitsRoundTrip(n / 10);
    }
  }

  /** Rendering an integer with %d and parsing it back gives the integer. */
  lemma DecimalRoundTrip(n: int)
    ensures ParseDecimal(DecimalString(n)) == Some(n)
  {
    if n < 0 {
      var d := NatDigits(-n);
      var text := "-" + d;
      assert text[1..] == d;
      assert forall i :: 1 <= i < |text| ==> text[i] == d[i - 1];
      DigitsRoundTrip(-n);
    } else {
      var d := NatDigits(n);
      assert IsDigit(d[0]);
      DigitsRoundTrip(n);
    }
  }

  /** A piece of a split never contains the separator. */
  lemma {:induction false} SplitPartsLackSep(s: string, sep: string)
    requires |sep| > 0
    ensures forall k :: 0 <= k < |Split(s, sep)| ==> !Contains(Split(s, sep)[k], sep)
    decreases |s|
  {
    match IndexOf(s, sep)
    case None =>
    case Some(i) =>
      SplitPartsLackSep(s[i + |sep|..], sep);
      assert forall j :: 0 <= j <= i ==> (IsAt(s[..i], sep, j) ==> IsAt(s, sep, j));
  }

  /** Joining the pieces of a split with the separator gives back the string. */
  lemma {:induction false} SplitJoin(s: string, sep: string)
    requires |sep| > 0
    ensures Join(Split(s, sep), sep) == s
    decreases |s|
  {
    match IndexOf(s, sep)
    case None =>
    case Some(i) =>
      var rest := s[i + |sep|..];
      SplitJoin(rest, sep);
      JoinCons(s[..i], Split(rest, sep), sep);
      assert IsAt(s, sep, i);
      SplitAround(s, i, |sep|);
  }

  lemma SplitAround(s: string, i: nat, n: nat)
    requires i + n <= |s|
    ensures s == s[..i] + s[i..i + n] + s[i + n..]
  {
  }

  /** The first piece of a split is the text before the first occurrence of
      the separator, or the whole string when there is none. */
  lemma SplitHead(s: string, sep: string)
    requires |sep| > 0
    ensures Split(s, sep)[0] == match IndexOf(s, sep) case None => s case Some(i) => s[..i]
  {
  }

  /** After a split at the first occurrence, the remaining pieces are the
      split of the text after it. */
  lemma SplitTail(s: string, sep: string, i: nat)
    requires |sep| > 0 && IndexOf(s, sep) == Some(i)
    ensures Split(s, sep) == [s[..i]] + Split(s[i + |sep|..], sep)
  {
  }

  /** If some character of `sep` is missing from `s`, `sep` does not occur. */
  lemma MissingCharNotContained(s: string, sep: string, k: nat)
    requires k < |sep| && sep[k] !in s
    ensures IndexOf(s, sep).None?
  {
    forall i | 0 <= i <= |s|
      ensures !IsAt(s, sep, i)
    {
      if i + |sep| <= |s| {
        assert s[i + k] in s;
        assert s[i..i + |sep|][k] == s[i + k];
      }
    }
  }

  /** When the last character of `sep` occurs nowhere else in `sep` and not in
      `p`, the first occurrence of `sep` in `p + sep + x` is right after `p`. */
  lemma {:induction false} IndexAfter(p: string, sep: string, x: string)
    requires |sep| > 0
    requires sep[|sep| - 1] !in p && sep[|sep| - 1] !in sep[..|sep| - 1]
    ensures IndexOf(p + sep + x, sep) == Some(|p|)
  {
    var s := p + sep + x;
    var n := |sep|;
    assert IsAt(s, sep, |p|) by { assert s[|p|..|p| + n] == sep; }
    forall j | 0 <= j < |p|
      ensures !IsAt(s, sep, j)
    {
      var k := j + n - 1;
      if k < |p| {
        assert s[k] == p[k];
        assert p[k] in p;
      } else {
        assert s[k] == sep[k - |p|];
        assert sep[k - |p|] in sep[..n - 1];
      }
      assert s[j..j + n][n - 1] == s[k];
    }
  }

  /** A one-character separator: the first occurrence after a prefix that
      lacks it. */
  lemma IndexAfterChar(p: string, c: char, x: string)
    requires c !in p
    ensures IndexOf(p + [c] + x, [c]) == Some(|p|)
  {
    IndexAfter(p, [c], x);
  }

  /** Splitting a string that lacks the separator character yields it whole. */
  lemma SplitLacking(s: string, c: char)
    requires c !in s
    ensures Split(s, [c]) == [s]
  {
    MissingCharNotContained(s, [c], 0);
  }

  /** Splitting `p + c + x` at `c`, when `p` lacks `c`. */
  lemma SplitAfterChar(p: string, c: char, x: string)
    requires c !in p
    ensures Split(p + [c] + x, [c]) == [p] + Split(x, [c])
  {
    IndexAfterChar(p, c, x);
    var s := p + [c] + x;
    assert s[..|p|] == p;
    assert s[|p| + 1..] == x;
  }

  /** `c` occurs in a join only if it occurs in a part or in the separator. */
  lemma {:induction false} JoinLacks(parts: seq<string>, sep: string, c: char)
    requires c !in sep
    requires forall k :: 0 <= k < |parts| ==> c !in parts[k]
    ensures c !in Join(parts, sep)
  {
    if |parts| > 1 {
      JoinLacks(parts[1..], sep, c);
    }
  }

  /** Splitting a join at a one-character separator that no part contains
      gives back the parts. */
  lemma {:induction false} JoinSplit(parts: seq<string>, c: char)
    requires |parts| > 0
    requires forall k :: 0 <= k < |parts| ==> c !in parts[k]
    ensures Split(Join(parts, [c]), [c]) == parts
  {
    if |parts| == 1 {
      SplitLacking(parts[0], c);
    } else {
      JoinSplit(parts[1..], c);
      SplitAfterChar(parts[0], c, Join(parts[1..], [c]));
    }
  }

  /** A one-character replacement removes every occurrence of that character
      when the replacement text lacks it. */
  lemma ReplaceRemoves(s: string, c: char, replacement: string)
    requires c !in replacement
    ensures c !in Replace(s, [c], replacement)
  {
    var parts := Split(s, [c]);
    SplitPartsLackSep(s, [c]);
    forall k | 0 <= k < |parts|
      ensures c !in parts[k]
    {
      if c in parts[k] {
        var i :| 0 <= i < |parts[k]| && parts[k][i] == c;
        assert IsAt(parts[k], [c], i);
      }
    }
    JoinLacks(parts, replacement, c);
  }

  /** Replace leaves a string without the searched character alone. */
  lemma ReplaceIdentity(s: string, c: char, replacement: string)
    requires c !in s
    ensures Replace(s, [c], replacement) == s
  {
    SplitLacking(s, c);
  }

  /** Reference definition of a one-character Replace: substitute each
      occurrence of `c`, one character at a time. */
  function ReplaceEach(s: string, c: char, replacement: string): string {
    if s == [] then []
    else (if s[0] == c then replacement else [s[0]]) + ReplaceEach(s[1..], c, replacement)
  }

  lemma {:induction false} ReplaceEachConcat(a: string, b: string, c: char, replacement: string)
    ensures ReplaceEach(a + b, c, replacement) == ReplaceEach(a, c, replacement) + ReplaceEach(b, c, replacement)
  {
    if a != [] {
      assert (a + b)[1..] == a[1..] + b;
      ReplaceEachConcat(a[1..], b, c, replacement);
    } else {
      assert a + b == b;
    }
  }

  lemma {:induction false} ReplaceEachLacking(s: string, c: char, replacement: string)
    requires c !in s
    ensures ReplaceEach(s, c, replacement) == s
  {
    if s != [] {
      ReplaceEachLacking(s[1..], c, replacement);
      assert [s[0]] + s[1..] == s;
    }
  }

  /** strings.Replace at its first match. */
  lemma ReplaceAtFirst(s: string, target: string, replacement: string, i: nat)
    requires |target| > 0 && IndexOf(s, target) == Some(i)
    ensures Replace(s, target, replacement) ==
      s[..i] + replacement + Replace(s[i + |target|..], target, replacement)
  {
    SplitTail(s, target, i);
    JoinCons(s[..i], Split(s[i + |target|..], target), replacement);
  }

  /** ReplaceEach at the first occurrence of its character. */
  lemma ReplaceEachAtFirst(s: string, c: char, replacement: string, i: nat)
    requires i < |s| && s[i] == c && c !in s[..i]
    ensures ReplaceEach(s, c, replacement) == s[..i] + replacement + ReplaceEach(s[i + 1..], c, replacement)
  {
    var p, x := s[..i], s[i + 1..];
    assert s == p + ([c] + x);
    ReplaceEachConcat(p, [c] + x, c, replacement);
    ReplaceEachLacking(p, c, replacement);
    assert ([c] + x)[1..] == x;
  }

  /** strings.Replace with a one-character target substitutes every
      occurrence of that character and keeps every other character. */
  lemma {:induction false} ReplaceIsCharwise(s: string, c: char, replacement: string)
    ensures Replace(s, [c], replacement) == ReplaceEach(s, c, replacement)
    decreases |s|
  {
    match IndexOf(s, [c])
    case None =>
      forall k | 0 <= k < |s| ensures s[k] != c {
        assert !IsAt(s, [c], k);
        assert s[k..k + 1] == [s[k]];
      }
      ReplaceEachLacking(s, c, replacement);
    case Some(i) =>
      forall k | 0 <= k < i ensures s[..i][k] != c {
        assert !IsAt(s, [c], k);
        assert s[k..k + 1] == [s[k]];
      }
      assert s[i..i + 1] == [c];
      ReplaceAtFirst(s, [c], replacement, i);
      ReplaceEachAtFirst(s, c, replacement, i);
      ReplaceIsCharwise(s[i + 1..], c, replacement);
  }
}
