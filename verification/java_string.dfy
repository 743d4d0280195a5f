/**
 * The parts of java.lang.String that the generation pipeline relies on, with
 * Java's own semantics: `trim` (strips chars up to U+0020), `indexOf`,
 * `lastIndexOf`, `contains`, `startsWith`, `endsWith`, `replace(char, char)`,
 * `split` with a literal delimiter (trailing empty strings dropped), the one
 * `replaceFirst("package .*", ...)` the engine performs (with Java's
 * replacement syntax), and `%d` formatting.
 * Case-insensitive operations fold ASCII letters only.
 */
module JavaString {
  import opened Wrappers

  // ---------------------------------------------------------------------
  // trim

  /** The characters `String.trim()` removes: every code point up to U+0020. */
  predicate IsTrimmable(c: char) {
    c <= ' '
  }

  /** `s.trim().isEmpty()`. */
  predicate IsBlank(s: string) {
    forall k :: 0 <= k < |s| ==> IsTrimmable(s[k])
  }

  /** r is a contiguous piece of s. */
  ghost predicate IsSubstring(r: string, s: string) {
    exists a, b :: 0 <= a <= b <= |s| && r == s[a..b]
  }

  lemma SubstringOfSlice(r: string, s: string, a: nat, b: nat)
    requires a <= b <= |s|
    requires IsSubstring(r, s[a..b])
    ensures IsSubstring(r, s)
  {
    var c, d :| 0 <= c <= d <= b - a && r == s[a..b][c..d];
    forall k | 0 <= k < d - c
      ensures s[a..b][c..d][k] == s[a + c..a + d][k]
    {
      assert s[a..b][c..d][k] == s[a..b][c + k] == s[a + c + k];
    }
    assert s[a..b][c..d] == s[a + c..a + d];
    assert 0 <= a + c <= a + d <= |s| && r == s[a + c..a + d];
  }

  lemma SubstringTransitive(r: string, s: string, t: string)
    requires IsSubstring(r, s) && IsSubstring(s, t)
    ensures IsSubstring(r, t)
  {
    var a, b :| 0 <= a <= b <= |t| && s == t[a..b];
    SubstringOfSlice(r, t, a, b);
  }

  /** Number of trimmable characters at the front of s. */
  function LeadingTrimmable(s: string): (n: nat)
    ensures n <= |s|
    ensures forall k :: 0 <= k < n ==> IsTrimmable(s[k])
    ensures n < |s| ==> !IsTrimmable(s[n])
  {
    if s == [] || !IsTrimmable(s[0]) then 0 else 1 + LeadingTrimmable(s[1..])
  }

  /** Number of trimmable characters at the back of s. */
  function TrailingTrimmable(s: string): (n: nat)
    ensures n <= |s|
    ensures forall k :: |s| - n <= k < |s| ==> IsTrimmable(s[k])
    ensures n < |s| ==> !IsTrimmable(s[|s| - 1 - n])
  {
    if s == [] || !IsTrimmable(s[|s| - 1]) then 0 else 1 + TrailingTrimmable(s[..|s| - 1])
  }

  /** Index where `trim()` starts keeping characters. */
  function TrimStart(s: string): nat
    ensures TrimStart(s) <= |s|
  {
    LeadingTrimmable(s)
  }

  /** Index where `trim()` stops keeping characters. */
  function TrimEnd(s: string): (e: nat)
    ensures TrimStart(s) <= e <= |s|
  {
    |s| - TrailingTrimmable(s[TrimStart(s)..])
  }

  /** `String.trim()`: s without its leading and trailing chars up to U+0020. */
  function Trim(s: string): (r: string)
    ensures r == s[TrimStart(s)..TrimEnd(s)]
    ensures forall k :: 0 <= k < TrimStart(s) ==> IsTrimmable(s[k])
    ensures forall k :: TrimEnd(s) <= k < |s| ==> IsTrimmable(s[k])
    ensures r != [] ==> !IsTrimmable(r[0]) && !IsTrimmable(r[|r| - 1])
    ensures r == [] <==> IsBlank(s)
  {
    TrimBounds(s);
    s[TrimStart(s)..TrimEnd(s)]
  }

  /** What lies outside [TrimStart, TrimEnd) is trimmable, and the kept range starts and ends on a kept character. */
  lemma TrimBounds(s: string)
    ensures forall k :: TrimEnd(s) <= k < |s| ==> IsTrimmable(s[k])
    ensures TrimStart(s) < TrimEnd(s) ==> !IsTrimmable(s[TrimStart(s)]) && !IsTrimmable(s[TrimEnd(s) - 1])
    ensures TrimStart(s) == TrimEnd(s) <==> IsBlank(s)
  {
    var a := LeadingTrimmable(s);
    var t := s[a..];
    var n := TrailingTrimmable(t);
    var e := |s| - n;
    assert TrimStart(s) == a && TrimEnd(s) == e;
    forall k | e <= k < |s|
      ensures IsTrimmable(s[k])
    {
      assert s[k] == t[k - a];
    }
    if a < e {
      assert s[e - 1] == t[|t| - 1 - n];
    } else {
      assert a == |s|;
    }
  }

  lemma TrimIsSubstring(s: string)
    ensures IsSubstring(Trim(s), s)
  {
    assert Trim(s) == s[TrimStart(s)..TrimEnd(s)];
  }

  // ---------------------------------------------------------------------
  // searching

  /** p occurs in s at index i. */
  predicate OccursAt(s: string, p: string, i: int) {
    0 <= i && i + |p| <= |s| && s[i..i + |p|] == p
  }

  /** `s.indexOf(p, from)`: the first occurrence at or after `from`, or -1. */
  function IndexOfFrom(s: string, p: string, from: nat): (r: int)
    requires from <= |s|
    ensures r == -1 || (from <= r && OccursAt(s, p, r))
    ensures forall k :: from <= k && (r == -1 || k < r) ==> !OccursAt(s, p, k)
    decreases |s| - from
  {
    if from + |p| > |s| then -1
    else if s[from..from + |p|] == p then from
    else IndexOfFrom(s, p, from + 1)
  }

  /** `s.indexOf(p)`: the first occurrence of p in s, or -1. */
  function IndexOf(s: string, p: string): (r: int)
    ensures r == -1 || OccursAt(s, p, r)
    ensures forall k :: 0 <= k && (r == -1 || k < r) ==> !OccursAt(s, p, k)
  {
    IndexOfFrom(s, p, 0)
  }

  /** `s.contains(p)`. */
  function Contains(s: string, p: string): (b: bool)
    ensures b <==> exists i :: OccursAt(s, p, i)
  {
    IndexOf(s, p) != -1
  }

  /** The last occurrence of p in s at an index at most `upto`, or -1. */
  function LastIndexOfUpTo(s: string, p: string, upto: int): (r: int)
    ensures r == -1 || (r <= upto && OccursAt(s, p, r))
    ensures forall k :: r < k <= upto ==> !OccursAt(s, p, k)
    decreases if upto < 0 then 0 else upto + 1
  {
    if upto < 0 then -1
    else if OccursAt(s, p, upto) then upto
    else LastIndexOfUpTo(s, p, upto - 1)
  }

  /** `s.lastIndexOf(p)`: the last occurrence of p in s, or -1. */
  function LastIndexOf(s: string, p: string): (r: int)
    ensures r == -1 || OccursAt(s, p, r)
    ensures forall k :: r < k ==> !OccursAt(s, p, k)
  {
    LastIndexOfUpTo(s, p, |s| - |p|)
  }

  /** `s.startsWith(p)`. */
  predicate StartsWith(s: string, p: string) {
    |p| <= |s| && s[..|p|] == p
  }

  /** `s.endsWith(p)`. */
  predicate EndsWith(s: string, p: string) {
    |p| <= |s| && s[|s| - |p|..] == p
  }

  lemma ContainsMiddle(a: string, b: string, c: string)
    ensures Contains(a + b + c, b)
  {
    assert OccursAt(a + b + c, b, |a|);
  }

  lemma ContainsPrefix(a: string, b: string)
    ensures Contains(a + b, a)
  {
    assert OccursAt(a + b, a, 0);
  }

  lemma ContainsSuffix(a: string, b: string)
    ensures Contains(a + b, b)
  {
    assert OccursAt(a + b, b, |a|);
  }

  /** A string starts with each of its prefixes. */
  lemma StartsWithConcat(a: string, b: string)
    ensures StartsWith(a + b, a)
  {
    assert (a + b)[..|a|] == a;
  }

  /** Appending text keeps a prefix. */
  lemma StartsWithKept(head: string, opener: string, rest: string)
    requires StartsWith(head, opener)
    ensures StartsWith(head + rest, opener)
  {
    assert forall k :: 0 <= k < |opener| ==> (head + rest)[k] == head[k];
    assert (head + rest)[..|opener|] == head[..|opener|];
  }

  /** Appending text keeps an occurrence. */
  lemma ContainsKept(s: string, p: string, rest: string)
    requires Contains(s, p)
    ensures Contains(s + rest, p)
  {
    var i :| OccursAt(s, p, i);
    assert (s + rest)[i..i + |p|] == s[i..i + |p|];
    assert OccursAt(s + rest, p, i);
  }

  /** Containment is transitive. */
  lemma ContainsTransitive(s: string, t: string, p: string)
    requires Contains(s, t) && Contains(t, p)
    ensures Contains(s, p)
  {
    var i :| OccursAt(s, t, i);
    var j :| OccursAt(t, p, j);
    assert t == s[i..i + |t|];
    forall k | 0 <= k < |p|
      ensures s[i + j + k] == p[k]
    {
      assert p[k] == t[j + k] == s[i + j + k];
    }
    assert s[i + j..i + j + |p|] == p;
    assert OccursAt(s, p, i + j);
  }

  /** A string that lacks one of the characters of p cannot contain p. */
  lemma MissingCharNotContained(s: string, p: string, c: char)
    requires c in p && c !in s
    ensures !Contains(s, p)
  {
  }

  /** A string does not contain a pattern longer than itself. */
  lemma TooShortToContain(s: string, p: string)
    requires |s| < |p|
    ensures !Contains(s, p)
  {
  }

  /** Nothing before the first occurrence of a non-empty p contains p. */
  lemma BeforeFirstOccurrence(s: string, p: string)
    requires |p| > 0 && Contains(s, p)
    ensures !Contains(s[..IndexOf(s, p)], p)
  {
    var i := IndexOf(s, p);
    forall j | 0 <= j && OccursAt(s[..i], p, j)
      ensures OccursAt(s, p, j) && j < i
    {
      assert s[j..j + |p|] == s[..i][j..j + |p|];
    }
  }

  /** An occurrence of p in a piece of s is an occurrence in s. */
  lemma SubstringContains(s: string, t: string, p: string)
    requires IsSubstring(t, s)
    ensures Contains(t, p) ==> Contains(s, p)
  {
    var a, b :| 0 <= a <= b <= |s| && t == s[a..b];
    if Contains(t, p) {
      var j :| OccursAt(t, p, j);
      assert |t| == b - a;
      forall k | 0 <= k < |p|
        ensures s[a + j + k] == p[k]
      {
        assert p[k] == t[j + k] == s[a + j + k];
      }
      assert s[a + j..a + j + |p|] == p;
      assert OccursAt(s, p, a + j);
    }
  }

  /** A substring of a text without p does not contain p either. */
  lemma SubstringAvoids(s: string, t: string, p: string)
    requires IsSubstring(t, s) && !Contains(s, p)
    ensures !Contains(t, p)
  {
    SubstringContains(s, t, p);
  }

  /** Different tails after the same head give different strings. */
  lemma HeadCancels(a: string, b: string, c: string)
    requires b != c
    ensures a + b != a + c
  {
    assert (a + b)[|a|..] == b;
    assert (a + c)[|a|..] == c;
  }

  /** Strings that differ right after a common head are different. */
  lemma FirstDifferenceAfterHead(a: string, b: string, c: string, d: string, e: string)
    requires |b| > 0 && |d| > 0 && b[0] != d[0]
    ensures a + b + c != a + d + e
  {
    assert (a + b + c)[|a|] == b[0];
    assert (a + d + e)[|a|] == d[0];
  }

  /** A string with no trimmable character at either end is its own trim. */
  lemma TrimUntouched(s: string)
    requires s != [] && !IsTrimmable(s[0]) && !IsTrimmable(s[|s| - 1])
    ensures Trim(s) == s
  {
    assert LeadingTrimmable(s) == 0;
    assert s[0..] == s;
    assert TrailingTrimmable(s) == 0;
  }

  // ---------------------------------------------------------------------
  // case folding and character replacement

  /** ASCII lower-casing of one character. */
  function LowerAscii(c: char): (r: char)
    ensures 'A' <= c <= 'Z' ==> 'a' <= r <= 'z'
  {
    if 'A' <= c <= 'Z' then (c as int + 32) as char else c
  }

  /** `s.toLowerCase()` restricted to ASCII letters. */
  function ToLowerAscii(s: string): (r: string)
    ensures |r| == |s|
    ensures forall k :: 0 <= k < |s| ==> r[k] == LowerAscii(s[k])
  {
    seq(|s|, k requires 0 <= k < |s| => LowerAscii(s[k]))
  }

  /** `a.equalsIgnoreCase(b)` with ASCII case folding. */
  predicate EqualsIgnoreCase(a: string, b: string) {
    ToLowerAscii(a) == ToLowerAscii(b)
  }

  /** `s.replace(from, to)` for single characters. */
  function ReplaceChar(s: string, from: char, to: char): (r: string)
    ensures |r| == |s|
    ensures forall k :: 0 <= k < |s| ==> r[k] == if s[k] == from then to else s[k]
  {
    seq(|s|, k requires 0 <= k < |s| => if s[k] == from then to else s[k])
  }

  // ---------------------------------------------------------------------
  // split

  /**
   * Every piece of s around the non-overlapping occurrences of d, found left
   * to right, including empty pieces (what a Java regex split produces
   * before it drops trailing empty strings).
   */
  function SplitAll(s: string, d: string): (parts: seq<string>)
    requires |d| > 0
    ensures |parts| >= 1
    decreases |s|
  {
    var i := IndexOf(s, d);
    if i == -1 then [s] else [s[..i]] + SplitAll(s[i + |d|..], d)
  }

  /** The pieces glued back together with d between them. */
  function Join(parts: seq<string>, d: string): string
    requires |parts| >= 1
  {
    if |parts| == 1 then parts[0] else parts[0] + d + Join(parts[1..], d)
  }

  /** Joining one more piece appends the delimiter and the piece. */
  lemma {:induction false} JoinSnoc(parts: seq<string>, p: string, d: string)
    requires |parts| >= 1
    ensures Join(parts + [p], d) == Join(parts, d) + d + p
  {
    if |parts| > 1 {
      assert (parts + [p])[1..] == parts[1..] + [p];
      JoinSnoc(parts[1..], p, d);
    }
  }

  /** Every piece occurs in the joined string. */
  lemma JoinContainsEach(parts: seq<string>, d: string)
    requires |parts| >= 1
    ensures forall k :: 0 <= k < |parts| ==> Contains(Join(parts, d), parts[k])
  {
    forall k | 0 <= k < |parts|
      ensures Contains(Join(parts, d), parts[k])
    {
      JoinContainsPiece(parts, d, k);
    }
  }

  /** The k-th piece occurs in the joined string. */
  lemma {:induction false} JoinContainsPiece(parts: seq<string>, d: string, k: nat)
    requires k < |parts|
    ensures Contains(Join(parts, d), parts[k])
    decreases |parts|
  {
    if |parts| == 1 {
      assert OccursAt(parts[0], parts[0], 0);
    } else {
      var rest := Join(parts[1..], d);
      if k == 0 {
        ContainsPrefix(parts[0], d + rest);
        assert Join(parts, d) == parts[0] + (d + rest);
      } else {
        JoinContainsPiece(parts[1..], d, k - 1);
        assert parts[1..][k - 1] == parts[k];
        ContainsSuffix(parts[0] + d, rest);
        ContainsTransitive(Join(parts, d), rest, parts[k]);
      }
    }
  }

  /** The pieces glued together, as a StringBuilder fed left to right. */
  function Concat(parts: seq<string>): string {
    if parts == [] then "" else parts[0] + Concat(parts[1..])
  }

  /** Every piece occurs in the glued string, which starts with the first piece. */
  lemma {:induction false} ConcatContainsEach(parts: seq<string>)
    ensures forall k :: 0 <= k < |parts| ==> Contains(Concat(parts), parts[k])
    ensures |parts| > 0 ==> StartsWith(Concat(parts), parts[0])
  {
    if parts != [] {
      ConcatContainsEach(parts[1..]);
      ContainsPrefix(parts[0], Concat(parts[1..]));
      StartsWithConcat(parts[0], Concat(parts[1..]));
      forall k | 1 <= k < |parts|
        ensures Contains(Concat(parts), parts[k])
      {
        assert parts[k] == parts[1..][k - 1];
        ContainsSuffix(parts[0], Concat(parts[1..]));
        ContainsTransitive(Concat(parts), Concat(parts[1..]), parts[k]);
      }
    }
  }

  /** Gluing one more piece at the end appends it. */
  lemma {:induction false} ConcatSnoc(parts: seq<string>, p: string)
    ensures Concat(parts + [p]) == Concat(parts) + p
  {
    if parts != [] {
      assert (parts + [p])[1..] == parts[1..] + [p];
      ConcatSnoc(parts[1..], p);
    }
  }

  /** A string that starts with p finds p at index 0. */
  lemma IndexOfPrefix(s: string, p: string)
    requires StartsWith(s, p)
    ensures IndexOf(s, p) == 0
  {
    assert OccursAt(s, p, 0);
  }

  /** The middle piece of a three-piece string is found where it was put. */
  lemma MiddleSlice(a: string, b: string, c: string)
    ensures (a + b + c)[|a|..|a| + |b|] == b
  {
  }

  lemma SplitAround(s: string, i: nat, n: nat)
    requires i + n <= |s|
    ensures s == s[..i] + s[i..i + n] + s[i + n..]
  {
  }

  /** Splitting loses nothing: joining the pieces with d gives s back. */
  lemma {:induction false} JoinSplitAll(s: string, d: string)
    requires |d| > 0
    ensures Join(SplitAll(s, d), d) == s
    decreases |s|
  {
    var i := IndexOf(s, d);
    if i != -1 {
      var rest := s[i + |d|..];
      var tail := SplitAll(rest, d);
      JoinSplitAll(rest, d);
      var parts := [s[..i]] + tail;
      assert parts[1..] == tail;
      assert Join(parts, d) == s[..i] + d + rest;
      SplitAround(s, i, |d|);
    }
  }

  /** No piece of the split contains the delimiter. */
  lemma SplitAllPiecesAreFree(s: string, d: string)
    requires |d| > 0
    ensures forall k :: 0 <= k < |SplitAll(s, d)| ==> !Contains(SplitAll(s, d)[k], d)
  {
    forall k | 0 <= k < |SplitAll(s, d)|
      ensures !Contains(SplitAll(s, d)[k], d)
    {
      SplitAllPieceIsFree(s, d, k);
    }
  }

  /** The k-th piece of the split does not contain the delimiter. */
  lemma {:induction false} SplitAllPieceIsFree(s: string, d: string, k: nat)
    requires |d| > 0 && k < |SplitAll(s, d)|
    ensures !Contains(SplitAll(s, d)[k], d)
    decreases |s|
  {
    var i := IndexOf(s, d);
    if i != -1 {
      var rest := s[i + |d|..];
      assert SplitAll(s, d) == [s[..i]] + SplitAll(rest, d);
      if k == 0 {
        BeforeFirstOccurrence(s, d);
        assert SplitAll(s, d)[k] == s[..i];
      } else {
        SplitAllPieceIsFree(rest, d, k - 1);
        assert SplitAll(s, d)[k] == SplitAll(rest, d)[k - 1];
      }
    } else {
      assert SplitAll(s, d) == [s];
    }
  }

  /** Drops the empty strings at the end of parts, as `String.split` does. */
  function DropTrailingEmpty(parts: seq<string>): (r: seq<string>)
    ensures r <= parts
    ensures r == [] || r[|r| - 1] != ""
    ensures forall k :: |r| <= k < |parts| ==> parts[k] == ""
  {
    if parts != [] && parts[|parts| - 1] == "" then DropTrailingEmpty(parts[..|parts| - 1])
    else parts
  }

  /**
   * `s.split(d)` for a delimiter with no regex metacharacters: with no
   * occurrence of d the result is [s] (even for an empty s); otherwise the
   * pieces around each occurrence, without the trailing empty ones.
   */
  function Split(s: string, d: string): (parts: seq<string>)
    requires |d| > 0
    ensures !Contains(s, d) ==> parts == [s]
    ensures forall k :: 0 <= k < |parts| ==> !Contains(parts[k], d)
    ensures Contains(s, d) ==> parts <= SplitAll(s, d)
  {
    SplitAllPiecesAreFree(s, d);
    if !Contains(s, d) then [s] else DropTrailingEmpty(SplitAll(s, d))
  }

  // ---------------------------------------------------------------------
  // the package-line substitution

  /** The characters that end a line for a Java regex `.` (which never matches them). */
  predicate IsLineTerminator(c: char) {
    c == '\n' || c == '\r' || c == '\U{85}' || c == '\U{2028}' || c == '\U{2029}'
  }

  /** The first line terminator at or after i, or |s|. */
  function LineEndFrom(s: string, i: nat): (e: nat)
    requires i <= |s|
    ensures i <= e <= |s|
    ensures forall k :: i <= k < e ==> !IsLineTerminator(s[k])
    ensures e < |s| ==> IsLineTerminator(s[e])
    decreases |s| - i
  {
    if i == |s| || IsLineTerminator(s[i]) then i else LineEndFrom(s, i + 1)
  }

  /** Drops the zeros at the front of s. */
  function DropLeadingZeros(s: string): (r: string)
    ensures |r| <= |s| && r == s[|s| - |r|..]
    ensures r == [] || r[0] != '0'
  {
    if s != [] && s[0] == '0' then DropLeadingZeros(s[1..]) else s
  }

  /**
   * The text `Matcher.appendReplacement` writes for a replacement string
   * when the pattern has no capturing group, given the matched text: a
   * backslash takes the next character literally, `$0` (and any zeros that
   * follow it) stands for the matched text, and every other `$` form throws
   * (None): a `$` at the end, `${name}`, a group 1-9 or a non-digit. A
   * backslash at the very end throws too.
   */
  function ExpandReplacement(rep: string, matched: string): (r: Option<string>)
    decreases |rep|
  {
    if rep == [] then Some([])
    else if rep[0] == '\\' then
      if |rep| == 1 then None
      else match ExpandReplacement(rep[2..], matched)
        case None => None
        case Some(t) => Some([rep[1]] + t)
    else if rep[0] == '$' then
      if |rep| == 1 || rep[1] != '0' then None
      else match ExpandReplacement(DropLeadingZeros(rep[2..]), matched)
        case None => None
        case Some(t) => Some(matched + t)
    else match ExpandReplacement(rep[1..], matched)
      case None => None
      case Some(t) => Some([rep[0]] + t)
  }

  /** A replacement with no `$` and no backslash is written as it is. */
  predicate IsLiteralReplacement(rep: string) {
    '$' !in rep && '\\' !in rep
  }

  /** A literal piece in front of a replacement is copied in front of its expansion. */
  lemma {:induction false} ExpandLiteralPrefix(a: string, b: string, matched: string)
    requires IsLiteralReplacement(a)
    ensures ExpandReplacement(a + b, matched) ==
      match ExpandReplacement(b, matched)
      case None => None
      case Some(t) => Some(a + t)
    decreases |a|
  {
    if a != [] {
      assert a[0] in a;
      assert (a + b)[0] == a[0] && (a + b)[1..] == a[1..] + b;
      assert IsLiteralReplacement(a[1..]) by { assert forall c :: c in a[1..] ==> c in a; }
      ExpandLiteralPrefix(a[1..], b, matched);
      match ExpandReplacement(b, matched)
      case None =>
      case Some(t) => assert [a[0]] + (a[1..] + t) == a + t;
    } else {
      assert a + b == b;
      match ExpandReplacement(b, matched)
      case None =>
      case Some(t) => assert a + t == t;
    }
  }

  /** A literal replacement expands to itself, whatever was matched. */
  lemma ExpandLiteral(rep: string, matched: string)
    requires IsLiteralReplacement(rep)
    ensures ExpandReplacement(rep, matched) == Some(rep)
  {
    ExpandLiteralPrefix(rep, [], matched);
    assert rep + [] == rep;
  }

  /** After a literal piece, a `$` followed by anything but `0` makes the replacement throw. */
  lemma IllegalGroupReference(a: string, b: string, matched: string)
    requires IsLiteralReplacement(a)
    requires b == [] || b[0] != '0'
    ensures ExpandReplacement(a + "$" + b, matched).None?
  {
    ExpandLiteralPrefix(a, "$" + b, matched);
    assert ("$" + b)[0] == '$';
    assert |"$" + b| == 1 || ("$" + b)[1] == b[0];
    assert a + "$" + b == a + ("$" + b);
  }

  /** After a literal piece, a backslash drops out and the character behind it is kept. */
  lemma EscapedCharacter(a: string, c: char, b: string, matched: string)
    requires IsLiteralReplacement(a) && IsLiteralReplacement(b)
    ensures ExpandReplacement(a + "\\" + [c] + b, matched) == Some(a + [c] + b)
  {
    var tail := "\\" + [c] + b;
    assert a + "\\" + [c] + b == a + tail;
    ExpandLiteralPrefix(a, tail, matched);
    assert tail[0] == '\\' && tail[1] == c && tail[2..] == b;
    ExpandLiteral(b, matched);
    assert ExpandReplacement(tail, matched) == Some([c] + b);
    assert a + ([c] + b) == a + [c] + b;
  }

  /**
   * `content.replaceFirst("package .*", replacement)`: the leftmost
   * "package " and the rest of its line (a Java `.` stops at a line
   * terminator) are replaced by the expanded replacement; content without
   * "package " is returned as it is, and the replacement is then not even
   * read. None where the expansion throws.
   */
  function ReplaceFirstPackageLine(content: string, replacement: string): (r: Option<string>)
    ensures !Contains(content, "package ") ==> r == Some(content)
    ensures Contains(content, "package ") ==>
      var i := IndexOf(content, "package ");
      var e := LineEndFrom(content, i + 8);
      && (r.None? <==> ExpandReplacement(replacement, content[i..e]).None?)
      && (r.Some? ==> r.value == content[..i] + ExpandReplacement(replacement, content[i..e]).value + content[e..])
  {
    var i := IndexOf(content, "package ");
    if i == -1 then Some(content)
    else
      var e := LineEndFrom(content, i + 8);
      match ExpandReplacement(replacement, content[i..e])
      case None => None
      case Some(t) => Some(content[..i] + t + content[e..])
  }

  // ---------------------------------------------------------------------
  // %d

  function DigitChar(d: nat): (c: char)
    requires d < 10
    ensures '0' <= c <= '9'
  {
    ('0' as int + d) as char
  }

  /** Decimal digits of n, most significant first. */
  function NatToDecimal(n: nat): (r: string)
    ensures |r| >= 1
    ensures forall k :: 0 <= k < |r| ==> '0' <= r[k] <= '9'
  {
    if n < 10 then [DigitChar(n)] else NatToDecimal(n / 10) + [DigitChar(n % 10)]
  }

  /** `String.format("%d", n)` for an int. */
  function IntToDecimal(n: int): string {
    if n < 0 then "-" + NatToDecimal(-n) else NatToDecimal(n)
  }

  /** The number a string of decimal digits denotes, most significant first. */
  function DigitsValue(s: string): int {
    if s == [] then 0 else DigitsValue(s[..|s| - 1]) * 10 + (s[|s| - 1] as int - '0' as int)
  }

  /** The number a decimal text denotes: an optional minus sign, then digits. */
  function DecimalValue(s: string): int {
    if s != [] && s[0] == '-' then -DigitsValue(s[1..]) else DigitsValue(s)
  }

  /** The digits of n denote n, and have no leading zero unless n is 0. */
  lemma {:induction false} NatToDecimalValue(n: nat)
    ensures DigitsValue(NatToDecimal(n)) == n
    ensures NatToDecimal(n)[0] != '0' || n == 0
  {
    if n >= 10 {
      var r := NatToDecimal(n);
      NatToDecimalValue(n / 10);
      assert r[..|r| - 1] == NatToDecimal(n / 10);
      assert r[0] == NatToDecimal(n / 10)[0];
    }
  }

  /** `%d` gives back the number: the text denotes n, with a minus sign exactly when n is negative. */
  lemma IntToDecimalValue(n: int)
    ensures DecimalValue(IntToDecimal(n)) == n
    ensures '-' in IntToDecimal(n) <==> n < 0
  {
    if n < 0 {
      NatToDecimalValue(-n);
      assert ("-" + NatToDecimal(-n))[1..] == NatToDecimal(-n);
      assert ("-" + NatToDecimal(-n))[0] == '-';
    } else {
      NatToDecimalValue(n);
      assert '-' !in NatToDecimal(n);
    }
  }
}
