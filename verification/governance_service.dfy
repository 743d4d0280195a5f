/**
 * GovernanceService: scans every generated file with the list of secret
 * patterns and reports one message per (file, matching pattern) pair.
 *
 * The only shipped pattern is `(?i)secret.*[a-zA-Z0-9]{20,}` searched with
 * `find()`: somewhere in the file the word "secret" (any ASCII case) is
 * followed, later on the same line, by at least 20 ASCII letters or digits.
 */
module GovernanceService {
  import opened JavaString

  // ---------------------------------------------------------------------
  // the pattern

  /** The patterns of SECRET_PATTERNS; the list holds exactly one. */
  datatype SecretPattern = SecretThenLongAlnumRun

  const SecretPatterns: seq<SecretPattern> := [SecretThenLongAlnumRun]

  /** The shipped pattern's source text. */
  function PatternText(p: SecretPattern): string {
    "(?i)secret.*[a-zA-Z0-9]{20,}"
  }

  /** `[a-zA-Z0-9]` (case-insensitive matching adds nothing to this class). */
  predicate IsAlnum(c: char) {
    'a' <= c <= 'z' || 'A' <= c <= 'Z' || '0' <= c <= '9'
  }

  /** `(?i)secret` matches at index i. */
  predicate SecretAt(s: string, i: nat) {
    i + 6 <= |s| && EqualsIgnoreCase(s[i..i + 6], "secret")
  }

  /** `[a-zA-Z0-9]{20}` matches at index j (a longer run also starts with such a match). */
  predicate AlnumRunAt(s: string, j: nat) {
    j + 20 <= |s| && forall k :: j <= k < j + 20 ==> IsAlnum(s[k])
  }

  /** `.` matches every character of s[a..b]: no line terminator in between. */
  predicate SameLine(s: string, a: nat, b: nat)
    requires a <= b <= |s|
  {
    forall k :: a <= k < b ==> !IsLineTerminator(s[k])
  }

  /**
   * Declarative reading of a successful `find()`: "secret" at i, then any
   * run of non-terminator characters, then 20 alphanumerics at j.
   */
  ghost predicate SecretMatch(s: string) {
    exists i: nat, j: nat :: i + 6 <= j <= |s| && SecretAt(s, i) && SameLine(s, i + 6, j) && AlnumRunAt(s, j)
  }

  /** `.*[a-zA-Z0-9]{20,}` matches starting at j. */
  predicate DotStarThenRun(s: string, j: nat)
    requires j <= |s|
    decreases |s| - j
  {
    AlnumRunAt(s, j) || (j < |s| && !IsLineTerminator(s[j]) && DotStarThenRun(s, j + 1))
  }

  /** The whole pattern matches starting at i. */
  predicate MatchesAt(s: string, i: nat) {
    SecretAt(s, i) && DotStarThenRun(s, i + 6)
  }

  /** `matcher(s).find()` resumed at index i: some match starts at or after i. */
  predicate FindFrom(s: string, i: nat)
    requires i <= |s|
    decreases |s| - i
  {
    MatchesAt(s, i) || (i < |s| && FindFrom(s, i + 1))
  }

  /** `pattern.matcher(content).find()`. */
  predicate Find(p: SecretPattern, content: string) {
    FindFrom(content, 0)
  }

  /** The tail `.*[a-zA-Z0-9]{20,}` matches from j exactly when a run starts later on the same line. */
  lemma {:induction false} DotStarThenRunIff(s: string, j: nat)
    requires j <= |s|
    ensures DotStarThenRun(s, j) <==> exists m: nat :: j <= m <= |s| && SameLine(s, j, m) && AlnumRunAt(s, m)
    decreases |s| - j
  {
    if DotStarThenRun(s, j) {
      if AlnumRunAt(s, j) {
        assert SameLine(s, j, j);
      } else {
        DotStarThenRunIff(s, j + 1);
        var m: nat :| j + 1 <= m <= |s| && SameLine(s, j + 1, m) && AlnumRunAt(s, m);
        assert SameLine(s, j, m);
      }
    }
    if m: nat :| j <= m <= |s| && SameLine(s, j, m) && AlnumRunAt(s, m) {
      if m > j {
        assert SameLine(s, j + 1, m);
        DotStarThenRunIff(s, j + 1);
      }
    }
  }

  /** Resuming the search at i finds a match exactly when one starts at or after i. */
  lemma {:induction false} FindFromIff(s: string, i: nat)
    requires i <= |s|
    ensures FindFrom(s, i) <==> exists k: nat :: i <= k <= |s| && MatchesAt(s, k)
    decreases |s| - i
  {
    if i < |s| {
      FindFromIff(s, i + 1);
      if k: nat :| i <= k <= |s| && MatchesAt(s, k) {
        if k > i {
          assert FindFrom(s, i + 1);
        }
      }
    }
  }

  /** The matcher agrees with the declarative reading of the pattern, in both directions. */
  lemma FindIsSecretMatch(p: SecretPattern, s: string)
    ensures Find(p, s) <==> SecretMatch(s)
  {
    FindFromIff(s, 0);
    if Find(p, s) {
      var i: nat :| i <= |s| && MatchesAt(s, i);
      DotStarThenRunIff(s, i + 6);
      var j: nat :| i + 6 <= j <= |s| && SameLine(s, i + 6, j) && AlnumRunAt(s, j);
      assert SecretAt(s, i);
    }
    if SecretMatch(s) {
      var i: nat, j: nat :| i + 6 <= j <= |s| && SecretAt(s, i) && SameLine(s, i + 6, j) && AlnumRunAt(s, j);
      DotStarThenRunIff(s, i + 6);
      assert MatchesAt(s, i);
    }
  }

  // ---------------------------------------------------------------------
  // the scan

  /** The violation message for a file. */
  function Message(fileName: string): string {
    "Potential secret found in " + fileName
  }

  /** The messages the inner loop adds for one file, over the given patterns in order. */
  function FileViolations(fileName: string, content: string, patterns: seq<SecretPattern>): seq<string> {
    if patterns == [] then []
    else
      FileViolations(fileName, content, patterns[..|patterns| - 1])
      + (if Find(patterns[|patterns| - 1], content) then [Message(fileName)] else [])
  }

  /** The list `scan` returns when the map's entries are visited in `order`. */
  function Violations(files: map<string, string>, order: seq<string>): seq<string>
    requires forall k :: 0 <= k < |order| ==> order[k] in files
  {
    if order == [] then []
    else
      var last := order[|order| - 1];
      Violations(files, order[..|order| - 1]) + FileViolations(last, files[last], SecretPatterns)
  }

  /** `order` visits every key of `files` exactly once, as a HashMap's entry set does. */
  predicate IsEnumeration(order: seq<string>, files: map<string, string>) {
    (forall k :: 0 <= k < |order| ==> order[k] in files) && multiset(order) == multiset(files.Keys)
  }

  /**
   * The keys of `files` in the order the map's entry set yields them. A
   * HashMap fixes no particular order, so the model picks any remaining key
   * at each step.
   */
  method EntrySetOrder(files: map<string, string>) returns (order: seq<string>)
    ensures IsEnumeration(order, files)
  {
    order := [];
    var rest := files.Keys;
    while rest != {}
      invariant rest <= files.Keys
      invariant forall k :: 0 <= k < |order| ==> order[k] in files
      invariant multiset(order) + multiset(rest) == multiset(files.Keys)
      decreases |rest|
    {
      var key :| key in rest;
      assert multiset(rest) == multiset(rest - {key}) + multiset{key};
      order := order + [key];
      rest := rest - {key};
    }
  }

  lemma EnumerationMembers(order: seq<string>, files: map<string, string>)
    requires IsEnumeration(order, files)
    ensures forall n :: n in files ==> multiset(order)[n] == 1
    ensures |order| == |files|
  {
    assert |multiset(order)| == |multiset(files.Keys)|;
  }

  /**
   * `scan(generatedFiles)`: for each entry (in the map's iteration order,
   * given as `order`) and each pattern, a message when the pattern is found.
   */
  method Scan(files: map<string, string>, order: seq<string>) returns (violations: seq<string>)
    requires IsEnumeration(order, files)
    ensures violations == Violations(files, order)
  {
    EnumerationMembers(order, files);
    violations := [];
    var i := 0;
    while i < |order|
      invariant 0 <= i <= |order|
      invariant violations == Violations(files, order[..i])
    {
      var fileName := order[i];
      var content := files[fileName];
      var p := 0;
      while p < |SecretPatterns|
        invariant 0 <= p <= |SecretPatterns|
        invariant violations == Violations(files, order[..i]) + FileViolations(fileName, content, SecretPatterns[..p])
      {
        if Find(SecretPatterns[p], content) {
          violations := violations + [Message(fileName)];
        }
        assert SecretPatterns[..p + 1][..p] == SecretPatterns[..p];
        p := p + 1;
      }
      assert order[..i + 1][..i] == order[..i];
      i := i + 1;
    }
    assert order[..i] == order;
  }

  // ---------------------------------------------------------------------
  // properties of the scan

  lemma MessageInjective(a: string, b: string)
    ensures Message(a) == Message(b) <==> a == b
  {
    if Message(a) == Message(b) {
      assert a == Message(a)[26..];
    }
  }

  /** Text without the word "secret" (in any ASCII case) never matches, whatever keys it holds. */
  lemma NoSecretWordNoMatch(s: string)
    requires forall i :: !SecretAt(s, i)
    ensures !SecretMatch(s)
  {
  }

  /** An `r` followed by an `e`, in either case: "secret" has one at its fourth place. */
  predicate ReAt(s: string, k: nat) {
    k + 1 < |s| && LowerAscii(s[k]) == 'r' && LowerAscii(s[k + 1]) == 'e'
  }

  lemma SecretAtHasRe(s: string, i: nat)
    requires SecretAt(s, i)
    ensures ReAt(s, i + 3)
  {
    var w := s[i..i + 6];
    assert ToLowerAscii(w)[3] == LowerAscii(s[i + 3]) && ToLowerAscii(w)[4] == LowerAscii(s[i + 4]);
    assert ToLowerAscii("secret")[3] == 'r' && ToLowerAscii("secret")[4] == 'e';
  }

  /** So text with no `re` anywhere holds no "secret" and never matches. */
  lemma NoReNoMatch(s: string)
    requires forall k :: !ReAt(s, k)
    ensures !SecretMatch(s)
  {
    forall i: nat | SecretAt(s, i)
      ensures false
    {
      SecretAtHasRe(s, i);
    }
    NoSecretWordNoMatch(s);
  }

  /** Two texts without `re` make one, unless the first ends in `r` and the second starts with `e`. */
  lemma NoReConcat(a: string, b: string)
    requires (forall k :: !ReAt(a, k)) && (forall k :: !ReAt(b, k))
    requires a != [] && b != [] ==> !(LowerAscii(a[|a| - 1]) == 'r' && LowerAscii(b[0]) == 'e')
    ensures forall k :: !ReAt(a + b, k)
  {
    forall k: nat | k + 1 < |a + b|
      ensures !ReAt(a + b, k)
    {
      if k + 1 < |a| {
        assert !ReAt(a, k);
      } else if k >= |a| {
        assert !ReAt(b, k - |a|);
      }
    }
  }

  /** With the single shipped pattern, a file contributes its message exactly when the pattern matches. */
  lemma SingleFileViolations(fileName: string, content: string)
    ensures FileViolations(fileName, content, SecretPatterns) ==
      if SecretMatch(content) then [Message(fileName)] else []
  {
    FindIsSecretMatch(SecretThenLongAlnumRun, content);
    assert SecretPatterns[..0] == [];
  }

  /**
   * How many times the message of file n appears: once per visit of n when
   * its content matches, never otherwise.
   */
  lemma {:induction false} ViolationCount(files: map<string, string>, order: seq<string>, n: string)
    requires forall k :: 0 <= k < |order| ==> order[k] in files
    requires n in files
    ensures multiset(Violations(files, order))[Message(n)] ==
      if SecretMatch(files[n]) then multiset(order)[n] else 0
  {
    if order != [] {
      var init := order[..|order| - 1];
      var last := order[|order| - 1];
      ViolationCount(files, init, n);
      var tail := FileViolations(last, files[last], SecretPatterns);
      assert Violations(files, order) == Violations(files, init) + tail;
      assert multiset(tail)[Message(n)] == if SecretMatch(files[n]) && last == n then 1 else 0 by {
        SingleFileViolations(last, files[last]);
        MessageInjective(last, n);
      }
      assert order == init + [last];
      assert multiset(order)[n] == multiset(init)[n] + multiset([last])[n];
    }
  }

  /** Every reported message names a visited file whose content matches. */
  lemma {:induction false} ViolationsAreMessages(files: map<string, string>, order: seq<string>)
    requires forall k :: 0 <= k < |order| ==> order[k] in files
    ensures forall v :: v in Violations(files, order) ==>
      exists k :: 0 <= k < |order| && SecretMatch(files[order[k]]) && v == Message(order[k])
  {
    if order != [] {
      var init := order[..|order| - 1];
      var last := order[|order| - 1];
      ViolationsAreMessages(files, init);
      SingleFileViolations(last, files[last]);
      forall v | v in Violations(files, order)
        ensures exists k :: 0 <= k < |order| && SecretMatch(files[order[k]]) && v == Message(order[k])
      {
        if v in Violations(files, init) {
          var k :| 0 <= k < |init| && SecretMatch(files[init[k]]) && v == Message(init[k]);
          assert order[k] == init[k];
        } else {
          assert order[|order| - 1] == last;
        }
      }
    }
  }

  /**
   * The scan of a whole map: each file's message appears once if its content
   * matches and not at all otherwise, and nothing else is reported.
   */
  lemma ScanReportsMatchingFiles(files: map<string, string>, order: seq<string>)
    requires IsEnumeration(order, files)
    ensures forall n :: n in files ==>
      multiset(Violations(files, order))[Message(n)] == if SecretMatch(files[n]) then 1 else 0
    ensures forall v :: v in Violations(files, order) ==>
      exists n :: n in files && SecretMatch(files[n]) && v == Message(n)
  {
    EnumerationMembers(order, files);
    forall n | n in files
      ensures multiset(Violations(files, order))[Message(n)] == if SecretMatch(files[n]) then 1 else 0
    {
      ViolationCount(files, order, n);
    }
    ViolationsAreMessages(files, order);
  }

  /** The map's iteration order changes the order of the messages, never which ones or how many. */
  lemma ScanOrderIndependent(files: map<string, string>, order1: seq<string>, order2: seq<string>)
    requires IsEnumeration(order1, files) && IsEnumeration(order2, files)
    ensures multiset(Violations(files, order1)) == multiset(Violations(files, order2))
  {
    ScanReportsMatchingFiles(files, order1);
    ScanReportsMatchingFiles(files, order2);
    forall v
      ensures multiset(Violations(files, order1))[v] == multiset(Violations(files, order2))[v]
    {
      if n :| n in files && v == Message(n) {
      } else {
        assert v !in Violations(files, order1);
        assert v !in Violations(files, order2);
      }
    }
  }

  /** The scan reports nothing exactly when no file's content matches. */
  lemma ScanEmptyIff(files: map<string, string>, order: seq<string>)
    requires IsEnumeration(order, files)
    ensures Violations(files, order) == [] <==> forall n :: n in files ==> !SecretMatch(files[n])
  {
    ScanReportsMatchingFiles(files, order);
    if Violations(files, order) != [] {
      assert Violations(files, order)[0] in Violations(files, order);
    }
    forall n | n in files && SecretMatch(files[n])
      ensures Violations(files, order) != []
    {
      assert multiset(Violations(files, order))[Message(n)] == 1;
    }
  }

  /** At most one message per file. */
  lemma {:induction false} ScanBounded(files: map<string, string>, order: seq<string>)
    requires forall k :: 0 <= k < |order| ==> order[k] in files
    ensures |Violations(files, order)| <= |order|
  {
    if order != [] {
      var last := order[|order| - 1];
      ScanBounded(files, order[..|order| - 1]);
      SingleFileViolations(last, files[last]);
    }
  }
}
