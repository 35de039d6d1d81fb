/**
 * The parts of Go's `strings` package (and `unicode.IsSpace`) that the
 * exporter relies on, over strings as sequences of characters.
 * Separators are single characters, which is how the exporter calls them.
 */
module GoStrings {

  /** `unicode.IsSpace`: the Latin-1 spaces and the other Unicode White_Space characters. */
  predicate IsSpace(c: char)
  {
    || c == '\t' || c == '\n' || c == '\U{B}' || c == '\U{C}' || c == '\r' || c == ' '
    || c == '\U{85}' || c == '\U{A0}' || c == '\U{1680}'
    || ('\U{2000}' <= c <= '\U{200A}')
    || c == '\U{2028}' || c == '\U{2029}' || c == '\U{202F}' || c == '\U{205F}' || c == '\U{3000}'
  }

  predicate AllSpace(s: string)
  {
    forall i :: 0 <= i < |s| ==> IsSpace(s[i])
  }

  /** A string that starts and ends with something other than white space (or is empty). */
  predicate Trimmed(s: string)
  {
    s == [] || (!IsSpace(s[0]) && !IsSpace(s[|s| - 1]))
  }

  /** The first position at or after `i` that does not hold white space, or `|s|`. */
  function SkipSpace(s: string, i: nat): (j: nat)
    requires i <= |s|
    ensures i <= j <= |s|
    ensures forall k :: i <= k < j ==> IsSpace(s[k])
    ensures j == |s| || !IsSpace(s[j])
    decreases |s| - i
  {
    if i < |s| && IsSpace(s[i]) then SkipSpace(s, i + 1) else i
  }

  /** The end of `s[i..j]` once the white space at its back is dropped. */
  function SkipSpaceBack(s: string, i: nat, j: nat): (e: nat)
    requires i <= j <= |s|
    ensures i <= e <= j
    ensures forall k :: e <= k < j ==> IsSpace(s[k])
    ensures e == i || !IsSpace(s[e - 1])
    decreases j
  {
    if i < j && IsSpace(s[j - 1]) then SkipSpaceBack(s, i, j - 1) else j
  }

  /**
   * `strings.TrimSpace`: the factor of `s` left after removing all leading and
   * all trailing white space.
   */
  function TrimSpace(s: string): (r: string)
    ensures Trimmed(r)
    ensures var i := SkipSpace(s, 0); var e := SkipSpaceBack(s, i, |s|);
      && r == s[i..e]
      && (forall k :: 0 <= k < i ==> IsSpace(s[k]))
      && (forall k :: e <= k < |s| ==> IsSpace(s[k]))
  {
    var i := SkipSpace(s, 0);
    s[i..SkipSpaceBack(s, i, |s|)]
  }

  /**
   * TrimSpace is determined by its contract: whenever `s` is white space, then a
   * trimmed `r`, then white space, TrimSpace(s) is that `r`.
   */
  lemma TrimSpaceUnique(a: string, r: string, b: string)
    requires AllSpace(a) && AllSpace(b) && Trimmed(r)
    ensures TrimSpace(a + r + b) == r
  {
    var s := a + r + b;
    var i := SkipSpace(s, 0);
    var e := SkipSpaceBack(s, i, |s|);
    if r == [] {
      assert forall k :: 0 <= k < |s| ==> IsSpace(s[k]) by {
        forall k | 0 <= k < |s| ensures IsSpace(s[k]) {
          if k < |a| { assert s[k] == a[k]; } else { assert s[k] == b[k - |a|]; }
        }
      }
      assert i == |s|;
      assert s[i..e] == [];
    } else {
      assert s[|a|] == r[0];
      assert i == |a|;
      var m := |a| + |r|;
      assert s[m - 1] == r[|r| - 1];
      assert e == m;
      assert s[i..e] == r;
    }
  }

  lemma TrimSpaceIdempotent(s: string)
    ensures TrimSpace(TrimSpace(s)) == TrimSpace(s)
  {
    var r := TrimSpace(s);
    assert [] + r + [] == r;
    TrimSpaceUnique([], r, []);
  }

  /** `strings.Index` for a one-character separator: the first position of `c`, or -1. */
  function IndexOf(s: string, c: char): (i: int)
    ensures -1 <= i < |s|
    ensures i == -1 <==> c !in s
    ensures 0 <= i ==> s[i] == c && c !in s[..i]
  {
    if |s| == 0 then -1
    else if s[0] == c then 0
    else
      var j := IndexOf(s[1..], c);
      assert s[1..][..(if j < 0 then 0 else j)] == s[1..(if j < 0 then 1 else j + 1)];
      if j == -1 then -1 else j + 1
  }

  /** `strings.LastIndex` for a one-character separator: the last position of `c`, or -1. */
  function LastIndex(s: string, c: char): (i: int)
    ensures -1 <= i < |s|
    ensures i == -1 <==> c !in s
    ensures 0 <= i ==> s[i] == c && c !in s[i + 1..]
  {
    if |s| == 0 then -1
    else if s[|s| - 1] == c then |s| - 1
    else
      var init := s[..|s| - 1];
      var j := LastIndex(init, c);
      LastIndexStep(s, c, j);
      j
  }

  /** A last character other than `c` leaves what the rest of the string says about `c`. */
  lemma LastIndexStep(s: string, c: char, j: int)
    requires |s| > 0 && s[|s| - 1] != c && -1 <= j < |s| - 1
    ensures (c in s) <==> (c in s[..|s| - 1])
    ensures 0 <= j ==> s[j] == s[..|s| - 1][j] && s[j + 1..] == s[..|s| - 1][j + 1..] + [s[|s| - 1]]
  {
    var init := s[..|s| - 1];
    assert s == init + [s[|s| - 1]];
  }

  /** `strings.Join`: the parts with `sep` between each two of them. */
  function Join(parts: seq<string>, sep: string): string
  {
    if |parts| == 0 then ""
    else if |parts| == 1 then parts[0]
    else parts[0] + sep + Join(parts[1..], sep)
  }

  /**
   * `strings.SplitN(s, sep, n)` for n >= 1: at most `n` pieces, cut at the first
   * `n - 1` separators, the last piece holding the unsplit remainder.
   */
  function SplitN(s: string, sep: char, n: nat): (parts: seq<string>)
    requires n >= 1
    ensures 1 <= |parts| <= n
    ensures forall k :: 0 <= k < |parts| - 1 ==> sep !in parts[k]
    ensures |parts| < n ==> sep !in parts[|parts| - 1]
    ensures Join(parts, [sep]) == s
    decreases n
  {
    var i := IndexOf(s, sep);
    if n == 1 || i < 0 then [s]
    else
      var rest := SplitN(s[i + 1..], sep, n - 1);
      JoinCut(s, sep, i, rest);
      [s[..i]] + rest
  }

  /** Putting the piece before a separator back in front of the rest's pieces. */
  lemma JoinCut(s: string, sep: char, i: nat, rest: seq<string>)
    requires i < |s| && s[i] == sep && |rest| >= 1 && Join(rest, [sep]) == s[i + 1..]
    ensures ([s[..i]] + rest)[1..] == rest && ([s[..i]] + rest)[0] == s[..i]
    ensures Join([s[..i]] + rest, [sep]) == s
  {
    var parts := [s[..i]] + rest;
    assert parts[1..] == rest;
    assert s == s[..i] + [sep] + s[i + 1..];
  }

  /** `strings.Split(s, sep)`: the pieces between every separator. */
  function Split(s: string, sep: char): (parts: seq<string>)
    ensures |parts| >= 1
    ensures forall k :: 0 <= k < |parts| ==> sep !in parts[k]
    ensures Join(parts, [sep]) == s
    decreases |s|
  {
    var i := IndexOf(s, sep);
    if i < 0 then [s]
    else
      var rest := Split(s[i + 1..], sep);
      assert s == s[..i] + [sep] + s[i + 1..];
      assert ([s[..i]] + rest)[1..] == rest;
      [s[..i]] + rest
  }

  lemma IndexOfAfter(a: string, sep: char, b: string)
    requires sep !in a
    ensures IndexOf(a + [sep] + b, sep) == |a|
    decreases |a|
  {
    if a != [] {
      assert (a + [sep] + b)[1..] == a[1..] + [sep] + b;
      IndexOfAfter(a[1..], sep, b);
    }
  }

  /** The two sides of a separator placed between `a` and `b`. */
  lemma CutAround(a: string, sep: char, b: string)
    ensures (a + [sep] + b)[..|a|] == a && (a + [sep] + b)[|a| + 1..] == b
  {
  }

  /** One step of SplitN: the piece before the first separator, then the rest split. */
  lemma SplitNCut(a: string, sep: char, b: string, n: nat)
    requires n >= 2 && IndexOf(a + [sep] + b, sep) == |a|
    ensures SplitN(a + [sep] + b, sep, n) == [a] + SplitN(b, sep, n - 1)
  {
    CutAround(a, sep, b);
  }

  lemma SplitNWhole(s: string, sep: char, n: nat)
    requires n >= 1 && (n > 1 ==> sep !in s)
    ensures SplitN(s, sep, n) == [s]
  {
  }

  /** SplitN undoes Join: pieces that keep to SplitN's contract come back unchanged. */
  lemma {:induction false} SplitNJoin(parts: seq<string>, sep: char, n: nat)
    requires 1 <= |parts| <= n
    requires forall k :: 0 <= k < |parts| - 1 ==> sep !in parts[k]
    requires |parts| < n ==> sep !in parts[|parts| - 1]
    ensures SplitN(Join(parts, [sep]), sep, n) == parts
    decreases n, 1
  {
    if |parts| > 1 {
      SplitNJoinStep(parts[0], parts[1..], sep, n);
      assert [parts[0]] + parts[1..] == parts;
    } else {
      SplitNWhole(parts[0], sep, n);
    }
  }

  /** The inductive step of SplitNJoin: a first piece in front of pieces that come back. */
  lemma {:induction false} SplitNJoinStep(head: string, tail: seq<string>, sep: char, n: nat)
    requires 1 <= |tail| < n && sep !in head
    requires forall k :: 0 <= k < |tail| - 1 ==> sep !in tail[k]
    requires |tail| < n - 1 ==> sep !in tail[|tail| - 1]
    ensures SplitN(Join([head] + tail, [sep]), sep, n) == [head] + tail
    decreases n, 0
  {
    SplitNJoin(tail, sep, n - 1);
    var rest := Join(tail, [sep]);
    JoinPrepend(head, tail, [sep]);
    IndexOfAfter(head, sep, rest);
    SplitNCut(head, sep, rest, n);
  }

  /** Split undoes Join on pieces that contain no separator. */
  lemma {:induction false} SplitJoin(parts: seq<string>, sep: char)
    requires |parts| >= 1
    requires forall k :: 0 <= k < |parts| ==> sep !in parts[k]
    ensures Split(Join(parts, [sep]), sep) == parts
    decreases |parts|
  {
    if |parts| > 1 {
      var rest := Join(parts[1..], [sep]);
      IndexOfAfter(parts[0], sep, rest);
      SplitCut(parts[0], sep, rest);
      SplitJoin(parts[1..], sep);
      assert [parts[0]] + parts[1..] == parts;
    }
  }

  /** One step of Split: the piece before the first separator, then the rest split. */
  lemma SplitCut(a: string, sep: char, b: string)
    requires IndexOf(a + [sep] + b, sep) == |a|
    ensures Split(a + [sep] + b, sep) == [a] + Split(b, sep)
  {
    CutAround(a, sep, b);
  }

  /** Number of occurrences of `c` in `s`. */
  function Count(s: string, c: char): nat
  {
    if s == [] then 0 else Count(s[..|s| - 1], c) + (if s[|s| - 1] == c then 1 else 0)
  }

  lemma {:induction false} CountAppend(a: string, b: string, c: char)
    ensures Count(a + b, c) == Count(a, c) + Count(b, c)
    decreases |b|
  {
    if b != [] {
      assert (a + b)[..|a + b| - 1] == a + b[..|b| - 1];
      CountAppend(a, b[..|b| - 1], c);
    } else {
      assert a + b == a;
    }
  }

  lemma {:induction false} CountZero(s: string, c: char)
    ensures Count(s, c) == 0 <==> c !in s
    decreases |s|
  {
    if s != [] {
      CountZero(s[..|s| - 1], c);
      assert s == s[..|s| - 1] + [s[|s| - 1]];
    }
  }

  /** `strings.ReplaceAll` for one-character patterns. */
  function ReplaceAll(s: string, from: char, to: char): (r: string)
    ensures |r| == |s|
    ensures forall i :: 0 <= i < |s| ==> r[i] == (if s[i] == from then to else s[i])
  {
    seq(|s|, i requires 0 <= i < |s| => if s[i] == from then to else s[i])
  }

  lemma ReplaceAllAppend(a: string, b: string, from: char, to: char)
    ensures ReplaceAll(a + b, from, to) == ReplaceAll(a, from, to) + ReplaceAll(b, from, to)
  {
  }

  /** A separator followed by a separator-free tail: its position is the last one. */
  lemma {:induction false} LastIndexBefore(a: string, c: char, b: string)
    requires c !in b
    ensures LastIndex(a + [c] + b, c) == |a|
    decreases |b|
  {
    var s := a + [c] + b;
    if b != [] {
      assert s[..|s| - 1] == a + [c] + b[..|b| - 1];
      LastIndexBefore(a, c, b[..|b| - 1]);
    } else {
      assert s == a + [c];
    }
  }

  /** The first piece of `strings.Split` is everything before the first separator. */
  lemma SplitHead(s: string, sep: char)
    ensures var i := IndexOf(s, sep); Split(s, sep)[0] == if i < 0 then s else s[..i]
  {
  }

  /** Join on a list of at least two pieces: the first piece, the separator, then the rest joined. */
  lemma JoinPrepend(x: string, rest: seq<string>, sep: string)
    requires |rest| >= 1
    ensures Join([x] + rest, sep) == x + sep + Join(rest, sep)
  {
    assert ([x] + rest)[1..] == rest;
  }

  /** A string without `from` is left as it is. */
  lemma ReplaceAllUnchanged(s: string, from: char, to: char)
    requires from !in s
    ensures ReplaceAll(s, from, to) == s
  {
  }
}
