/**
 * The multi-file parser of CodeGenerationEngine (`parseAndWriteLlmOutput`):
 * the LLM text is split on the start marker, each segment names a file on
 * its first line, files are filed under a sub-package "bucket" chosen from
 * the file name, the bucket carries over from segment to segment, and a
 * stub service is added when the text had no marker.
 */
module EngineParser {
  import opened Wrappers
  import opened JavaString
  import opened SourceText

  const StartMarker := "/// START FILE: "
  const EndMarker := "/// END FILE"

  /** File names that skip the duplicate check. */
  const CoreFiles := ["pom.xml", "application.yml", "application.properties",
                      "Dockerfile", "docker-compose.yml", "docker-compose.yaml"]

  /** The source directory of the intent's package: dots become slashes. */
  function PackagePath(pkg: string): (pp: string)
    ensures StartsWith(pp, "src/main/java/")
    ensures EndsWith(pp, "/")
  {
    var pp := "src/main/java/" + ReplaceChar(pkg, '.', '/') + "/";
    StartsWithConcat("src/main/java/", ReplaceChar(pkg, '.', '/') + "/");
    assert pp == "src/main/java/" + (ReplaceChar(pkg, '.', '/') + "/");
    pp
  }

  // ---------------------------------------------------------------------
  // segments

  /** One file of the LLM text: its name and its content. */
  datatype Segment = Segment(filename: string, content: string)

  /**
   * A split part as a file: nothing for a blank part or one without a
   * newline; otherwise the trimmed first line names the file and the rest
   * is its content, cut before the first end marker and trimmed when there
   * is one.
   */
  function ParseSegment(part: string): Option<Segment> {
    if IsBlank(part) then None
    else
      var endIndex := IndexOf(part, "\n");
      if endIndex == -1 then None
      else
        var filename := Trim(part[..endIndex]);
        var content := part[endIndex + 1..];
        if Contains(content, EndMarker) then
          Some(Segment(filename, Trim(content[..IndexOf(content, EndMarker)])))
        else
          Some(Segment(filename, content))
  }

  /** A part is skipped exactly when it is blank or has no newline. */
  lemma ParseSegmentSkips(part: string)
    ensures ParseSegment(part).None? <==> IsBlank(part) || !Contains(part, "\n")
  {
  }

  /** The first line of a part holds no newline, so neither does the file name taken from it. */
  lemma FilenameIsOneLine(part: string)
    requires Contains(part, "\n")
    ensures '\n' !in part[..IndexOf(part, "\n")]
    ensures '\n' !in Trim(part[..IndexOf(part, "\n")])
  {
    var line := part[..IndexOf(part, "\n")];
    if '\n' in line {
      var k :| 0 <= k < |line| && line[k] == '\n';
      assert OccursAt(part, "\n", k);
    }
    TrimIsSubstring(line);
    var a, b :| 0 <= a <= b <= |line| && Trim(line) == line[a..b];
    assert forall c :: c in Trim(line) ==> c in line;
  }

  /**
   * A stored file: the name is the trimmed first line and holds no newline;
   * the content holds no end marker; and when the part had no end marker
   * at all, the part is the first line, a newline and the content.
   */
  lemma ParseSegmentSpec(part: string)
    requires ParseSegment(part).Some?
    ensures var seg := ParseSegment(part).value;
      var line := part[..IndexOf(part, "\n")];
      && '\n' !in seg.filename
      && seg.filename == Trim(line)
      && !Contains(seg.content, EndMarker)
      && (!Contains(part, EndMarker) ==> part == line + "\n" + seg.content)
  {
    var e := IndexOf(part, "\n");
    FilenameIsOneLine(part);
    var line := part[..e];
    var rest := part[e + 1..];
    assert part == line + "\n" + rest by { assert part[e..e + 1] == "\n"; }
    if Contains(rest, EndMarker) {
      var cut := rest[..IndexOf(rest, EndMarker)];
      BeforeFirstOccurrence(rest, EndMarker);
      TrimIsSubstring(cut);
      SubstringAvoids(cut, Trim(cut), EndMarker);
      if !Contains(part, EndMarker) {
        ContainsSuffix(line + "\n", rest);
        ContainsTransitive(part, rest, EndMarker);
      }
    }
  }

  /** A file as the LLM is asked to write it: the name line, then the content. */
  function SegmentText(seg: Segment): string {
    seg.filename + "\n" + seg.content
  }

  /** A name the parser gives back unchanged: one line, not blank, no space at either end. */
  predicate IsCleanName(filename: string) {
    filename != [] && '\n' !in filename && !IsTrimmable(filename[0]) && !IsTrimmable(filename[|filename| - 1])
  }

  /** Parsing a written-out file with a clean name and no end marker gives that file back. */
  lemma ParseSegmentText(seg: Segment)
    requires IsCleanName(seg.filename) && !Contains(seg.content, EndMarker)
    ensures ParseSegment(SegmentText(seg)) == Some(seg)
  {
    var part := SegmentText(seg);
    var n := |seg.filename|;
    assert OccursAt(part, "\n", n);
    forall k | 0 <= k < n
      ensures !OccursAt(part, "\n", k)
    {
      assert part[k] == seg.filename[k];
    }
    assert IndexOf(part, "\n") == n;
    assert !IsBlank(part) by { assert part[0] == seg.filename[0]; }
    assert part[..n] == seg.filename;
    assert part[n + 1..] == seg.content;
    TrimUntouched(seg.filename);
  }

  // ---------------------------------------------------------------------
  // buckets

  /** The sub-package a file is filed under. */
  datatype Bucket = ServiceDir | ControllerDir | RepositoryDir | ModelDir | ConfigDir | UtilDir {
    /** The bucket as a directory, e.g. "controller/". */
    function Dir(): string {
      match this
      case ServiceDir => "service/"
      case ControllerDir => "controller/"
      case RepositoryDir => "repository/"
      case ModelDir => "model/"
      case ConfigDir => "config/"
      case UtilDir => "util/"
    }

    /** The bucket as a package name: its directory with the slash removed. */
    function Name(): string {
      Dir()[..|Dir()| - 1]
    }
  }

  /** Does a classification rule decide the bucket of this file? */
  predicate RuleMatches(filename: string, content: string) {
    || EndsWith(filename, "Controller.java")
    || EndsWith(filename, "Repository.java")
    || EndsWith(filename, "DTO.java") || EndsWith(filename, "Request.java")
    || EndsWith(filename, "Response.java") || EndsWith(filename, "Model.java")
    || Contains(content, "@Entity")
    || EndsWith(filename, "Config.java") || EndsWith(filename, "Configuration.java")
    || EndsWith(filename, "Util.java") || EndsWith(filename, "Utils.java")
  }

  /** The bucket of a file, by name suffix (or an `@Entity` content), else the previous one. */
  function Classify(filename: string, content: string, previous: Bucket): Bucket {
    if EndsWith(filename, "Controller.java") then ControllerDir
    else if EndsWith(filename, "Repository.java") then RepositoryDir
    else if EndsWith(filename, "DTO.java") || EndsWith(filename, "Request.java")
      || EndsWith(filename, "Response.java") || EndsWith(filename, "Model.java")
      || Contains(content, "@Entity") then ModelDir
    else if EndsWith(filename, "Config.java") || EndsWith(filename, "Configuration.java") then ConfigDir
    else if EndsWith(filename, "Util.java") || EndsWith(filename, "Utils.java") then UtilDir
    else previous
  }

  /**
   * A matching rule decides the bucket whatever came before; otherwise the
   * previous bucket carries over. Classifying twice changes nothing, and a
   * controller name wins over an `@Entity` content.
   */
  lemma ClassifySpec(filename: string, content: string, previous: Bucket, other: Bucket)
    ensures RuleMatches(filename, content) ==> Classify(filename, content, previous) == Classify(filename, content, other)
    ensures !RuleMatches(filename, content) ==> Classify(filename, content, previous) == previous
    ensures Classify(filename, content, Classify(filename, content, previous)) == Classify(filename, content, previous)
    ensures EndsWith(filename, "Controller.java") ==> Classify(filename, content, previous) == ControllerDir
  {
  }

  // ---------------------------------------------------------------------
  // the package rewrite

  /** The package line a rewritten file gets: `package <pkg>.<bucket>;`. */
  function PackageLine(pkg: string, bucket: Bucket): (line: string)
    ensures StartsWith(line, "package " + pkg)
  {
    var head := "package " + pkg;
    StartsWithConcat(head, ".");
    StartsWithKept(head + ".", head, bucket.Name());
    StartsWithKept(head + "." + bucket.Name(), head, ";");
    head + "." + bucket.Name() + ";"
  }

  /**
   * Content that does not mention the intent's package gets its first
   * package line replaced by `PackageLine`, read as a Java replacement
   * string. None where that throws: a `$` in the package name that is not
   * `$0`, say.
   */
  function FixPackage(pkg: string, bucket: Bucket, content: string): (r: Option<string>)
    ensures IsPlainPackage(pkg) ==> r.Some?
  {
    PlainRewriteSucceeds(pkg, bucket, content);
    if !Contains(content, "package " + pkg) then ReplaceFirstPackageLine(content, PackageLine(pkg, bucket))
    else Some(content)
  }

  /** The rewrite to the package line of a plain package never throws. */
  lemma PlainRewriteSucceeds(pkg: string, bucket: Bucket, content: string)
    ensures IsPlainPackage(pkg) ==> ReplaceFirstPackageLine(content, PackageLine(pkg, bucket)).Some?
  {
    if IsPlainPackage(pkg) && Contains(content, "package ") {
      var i := IndexOf(content, "package ");
      PackageLineIsLiteral(pkg, bucket);
      ExpandLiteral(PackageLine(pkg, bucket), content[i..LineEndFrom(content, i + 8)]);
    }
  }

  /** A package name with no `$` and no backslash: its package line is written as it is. */
  predicate IsPlainPackage(pkg: string) {
    IsLiteralReplacement(pkg)
  }

  /** The package line of a plain package holds no `$` and no backslash. */
  lemma PackageLineIsLiteral(pkg: string, bucket: Bucket)
    requires IsPlainPackage(pkg)
    ensures IsLiteralReplacement(PackageLine(pkg, bucket))
  {
    var line := PackageLine(pkg, bucket);
    assert IsLiteralReplacement("package ") && IsLiteralReplacement(bucket.Name());
    assert forall c :: c in line ==> c in "package " || c in pkg || c == '.' || c in bucket.Name() || c == ';';
  }

  /**
   * The rewrite throws only for content that has a package line but does
   * not name the package. For a plain package it never throws; then the
   * file either names the intent's package or has no package text at all
   * (and is unchanged), content already naming the package is kept, and
   * the rewrite is idempotent.
   */
  lemma FixPackageSpec(pkg: string, bucket: Bucket, content: string)
    ensures FixPackage(pkg, bucket, content).None? ==> !Contains(content, "package " + pkg) && Contains(content, "package ")
    ensures Contains(content, "package " + pkg) ==> FixPackage(pkg, bucket, content) == Some(content)
    ensures IsPlainPackage(pkg) ==>
      && FixPackage(pkg, bucket, content).Some?
      && var r := FixPackage(pkg, bucket, content).value;
      && (Contains(r, "package " + pkg) || (r == content && !Contains(content, "package ")))
      && FixPackage(pkg, bucket, r) == Some(r)
  {
    if IsPlainPackage(pkg) && !Contains(content, "package " + pkg) && Contains(content, "package ") {
      PlainRewriteNamesPackage(pkg, bucket, content);
    }
  }

  /** The rewrite of a plain package puts its package line where the first package line was. */
  lemma PlainRewriteNamesPackage(pkg: string, bucket: Bucket, content: string)
    requires IsPlainPackage(pkg) && !Contains(content, "package " + pkg) && Contains(content, "package ")
    ensures FixPackage(pkg, bucket, content).Some?
    ensures Contains(FixPackage(pkg, bucket, content).value, "package " + pkg)
  {
    var line := PackageLine(pkg, bucket);
    var i := IndexOf(content, "package ");
    var e := LineEndFrom(content, i + 8);
    PackageLineIsLiteral(pkg, bucket);
    ExpandLiteral(line, content[i..e]);
    var r := content[..i] + line + content[e..];
    assert FixPackage(pkg, bucket, content) == Some(r);
    ContainsMiddle(content[..i], line, content[e..]);
    assert Contains(line, "package " + pkg) by { assert OccursAt(line, "package " + pkg, 0); }
    ContainsTransitive(r, line, "package " + pkg);
  }

  /** The pieces of a package line hold no `$` and no backslash. */
  lemma PackageLinePiecesAreLiteral(bucket: Bucket)
    ensures IsLiteralReplacement("package ")
    ensures IsLiteralReplacement("." + bucket.Name() + ";")
  {
    BucketNameIsLiteral(bucket);
    var name := bucket.Name();
    assert forall x :: x in "." + name + ";" ==> x == '.' || x in name || x == ';';
  }

  lemma BucketNameIsLiteral(bucket: Bucket)
    ensures IsLiteralReplacement(bucket.Name())
  {
    var dir := bucket.Dir();
    assert IsLiteralReplacement(dir);
    assert forall x :: x in dir[..|dir| - 1] ==> x in dir;
  }

  /** Two pieces without `$` and backslash make one. */
  lemma LiteralConcat(x: string, y: string)
    requires IsLiteralReplacement(x) && IsLiteralReplacement(y)
    ensures IsLiteralReplacement(x + y)
  {
    assert forall c :: c in x + y ==> c in x || c in y;
  }

  /** The package line is "package ", the name, and the bucket's tail. */
  lemma PackageLineSplit(pkg: string, bucket: Bucket)
    ensures PackageLine(pkg, bucket) == "package " + pkg + ("." + bucket.Name() + ";")
  {
  }

  /** Regrouping around a character in the middle of a name. */
  lemma RegroupAround(head: string, a: string, c: char, b: string, tail: string)
    ensures head + (a + [c] + b) + tail == (head + a) + [c] + (b + tail)
  {
  }

  /**
   * A `$` in the package name that is not followed by `0` (`com.my$app`,
   * a legal Java package name) makes the rewrite throw, "Illegal group
   * reference", for every file with a package line that does not already
   * name the package.
   */
  lemma DollarPackageThrows(a: string, b: string, bucket: Bucket, content: string)
    requires IsLiteralReplacement(a) && (b == [] || b[0] != '0')
    requires Contains(content, "package ") && !Contains(content, "package " + a + "$" + b)
    ensures FixPackage(a + "$" + b, bucket, content).None?
  {
    var pkg := a + "$" + b;
    var tail := "." + bucket.Name() + ";";
    PackageLinePiecesAreLiteral(bucket);
    LiteralConcat("package ", a);
    PackageLineSplit(pkg, bucket);
    RegroupAround("package ", a, '$', b, tail);
    assert "package " + a + "$" + b == "package " + pkg;
    var rest := b + tail;
    assert rest[0] != '0' by { assert b == [] ==> rest[0] == tail[0] == '.'; }
    var i := IndexOf(content, "package ");
    IllegalGroupReference("package " + a, rest, content[i..LineEndFrom(content, i + 8)]);
  }

  /** So `com.my$app` with a file `package x;` throws. */
  lemma DollarPackageExample(bucket: Bucket)
    ensures FixPackage("com.my$app", bucket, "package x;").None?
  {
    assert "com.my$app" == "com.my" + "$" + "app";
    assert IsLiteralReplacement("com.my");
    assert Contains("package x;", "package ") by { assert OccursAt("package x;", "package ", 0); }
    TooShortToContain("package x;", "package " + "com.my$app");
    DollarPackageThrows("com.my", "app", bucket, "package x;");
  }

  /**
   * A backslash in the package name escapes the character behind it: the
   * file gets the package line of the name without the backslash.
   */
  lemma EscapedPackageLine(a: string, c: char, b: string, bucket: Bucket, matched: string)
    requires IsPlainPackage(a) && IsPlainPackage(b)
    ensures ExpandReplacement(PackageLine(a + "\\" + [c] + b, bucket), matched) == Some(PackageLine(a + [c] + b, bucket))
  {
    var tail := "." + bucket.Name() + ";";
    PackageLinePiecesAreLiteral(bucket);
    LiteralConcat("package ", a);
    LiteralConcat(b, tail);
    PackageLineSplit(a + "\\" + [c] + b, bucket);
    PackageLineSplit(a + [c] + b, bucket);
    RegroupAround("package ", a + "\\", c, b, tail);
    RegroupAround("package ", a, c, b, tail);
    assert ("package " + (a + "\\")) == ("package " + a) + "\\";
    EscapedCharacter("package " + a, c, b + tail, matched);
  }

  // ---------------------------------------------------------------------
  // the fold over the parts

  /** The generated files so far and the bucket left by the last stored segment. */
  datatype ParseState = ParseState(files: map<string, string>, bucket: Bucket)

  /** The duplicate check: a file outside the core list whose key under the previous bucket is taken. */
  predicate IsDuplicate(pkg: string, st: ParseState, seg: Segment) {
    seg.filename !in CoreFiles && PackagePath(pkg) + st.bucket.Dir() + seg.filename in st.files
  }

  /**
   * One loop iteration: skip the part, or store its file under its (new)
   * bucket. Where the package rewrite throws (`StepThrows`) the loop is
   * abandoned; the state is then left as it was and nothing reads it.
   */
  function Step(pkg: string, st: ParseState, part: string): ParseState {
    match ParseSegment(part)
    case None => st
    case Some(seg) =>
      if IsDuplicate(pkg, st, seg) then st
      else
        var bucket := Classify(seg.filename, seg.content, st.bucket);
        match FixPackage(pkg, bucket, seg.content)
        case None => st
        case Some(content) => ParseState(st.files[PackagePath(pkg) + bucket.Dir() + seg.filename := content], bucket)
  }

  /** Does this iteration throw? Only the package rewrite of a file about to be stored can. */
  predicate StepThrows(pkg: string, st: ParseState, part: string) {
    match ParseSegment(part)
    case None => false
    case Some(seg) =>
      !IsDuplicate(pkg, st, seg) && FixPackage(pkg, Classify(seg.filename, seg.content, st.bucket), seg.content).None?
  }

  /** The state after the loop has handled every part in order. */
  function Walk(pkg: string, st: ParseState, parts: seq<string>): ParseState
    decreases |parts|
  {
    if parts == [] then st
    else Step(pkg, Walk(pkg, st, parts[..|parts| - 1]), parts[|parts| - 1])
  }

  /** Does the loop throw on one of the parts, the earlier ones handled normally? */
  predicate WalkThrows(pkg: string, st: ParseState, parts: seq<string>)
    decreases |parts|
  {
    parts != [] &&
    (WalkThrows(pkg, st, parts[..|parts| - 1]) || StepThrows(pkg, Walk(pkg, st, parts[..|parts| - 1]), parts[|parts| - 1]))
  }

  /** The key of the fallback stub. */
  function StubKey(pkg: string): string {
    PackagePath(pkg) + "service/GeneratedService.java"
  }

  function StubImports(): string {
    "import org.springframework.stereotype.Service;\n"
    + "// LLM output format was not recognized. Dumping raw content:\n"
  }

  const StubTail := "\n@Service\npublic class GeneratedService {}\n"

  /** The raw LLM text as a block comment. */
  function Dump(llm: string): string {
    "/*\n" + llm + "\n*/"
  }

  /** The fallback service: package `<pkg>.service`, the raw LLM text in a block comment. */
  function Stub(pkg: string, llm: string): string {
    Declare(pkg + ".service", StubImports() + Dump(llm) + StubTail)
  }

  /** The stub is in `<pkg>.service` and carries the raw LLM text. */
  lemma StubSpec(pkg: string, llm: string)
    ensures StartsWith(Stub(pkg, llm), PackageStatement(pkg + ".service"))
    ensures Contains(Stub(pkg, llm), Dump(llm))
  {
    var body := StubImports() + Dump(llm) + StubTail;
    DeclareSpec(pkg + ".service", body);
    ContainsMiddle(StubImports(), Dump(llm), StubTail);
    DeclareContains(pkg + ".service", body, Dump(llm));
  }

  /** Does `parseAndWriteLlmOutput` throw, for the map it is given? */
  predicate ParseThrows(pkg: string, llm: string, files: map<string, string>) {
    WalkThrows(pkg, ParseState(files, ServiceDir), Split(llm, StartMarker))
  }

  /** What `parseAndWriteLlmOutput` leaves in the map it is given, when it does not throw. */
  function Parsed(pkg: string, llm: string, files: map<string, string>): map<string, string> {
    var parts := Split(llm, StartMarker);
    var st := Walk(pkg, ParseState(files, ServiceDir), parts);
    if |st.files| == 0 || |parts| <= 1 then st.files[StubKey(pkg) := Stub(pkg, llm)] else st.files
  }

  /** `parseAndWriteLlmOutput(intent, llmOutput, files)`, for the intent's package name; None where it throws. */
  method ParseAndWriteLlmOutput(pkg: string, llm: string, files: map<string, string>) returns (result: Option<map<string, string>>)
    ensures result.None? <==> ParseThrows(pkg, llm, files)
    ensures result.Some? ==> result.value == Parsed(pkg, llm, files)
  {
    var packagePath := PackagePath(pkg);
    var parts := Split(llm, StartMarker);
    var st := HandleParts(pkg, packagePath, parts, files);
    if st.None? {
      return None;
    }
    var written := st.value.files;
    if |written| == 0 || |parts| <= 1 {
      written := written[packagePath + "service/GeneratedService.java" := Stub(pkg, llm)];
    }
    return Some(written);
  }

  /** The loop over the split parts, starting in the service bucket; None where an iteration throws. */
  method HandleParts(pkg: string, packagePath: string, parts: seq<string>, files: map<string, string>)
    returns (r: Option<ParseState>)
    requires packagePath == PackagePath(pkg)
    ensures r.None? <==> WalkThrows(pkg, ParseState(files, ServiceDir), parts)
    ensures r.Some? ==> r.value == Walk(pkg, ParseState(files, ServiceDir), parts)
  {
    var result, subPackage := files, ServiceDir;
    var i := 0;
    while i < |parts|
      invariant 0 <= i <= |parts|
      invariant !WalkThrows(pkg, ParseState(files, ServiceDir), parts[..i])
      invariant ParseState(result, subPackage) == Walk(pkg, ParseState(files, ServiceDir), parts[..i])
    {
      assert parts[..i + 1][..i] == parts[..i];
      var next := HandlePart(pkg, packagePath, parts[i], result, subPackage);
      if next.None? {
        WalkThrowsLater(pkg, ParseState(files, ServiceDir), parts, i + 1);
        return None;
      }
      result, subPackage := next.value.files, next.value.bucket;
      i := i + 1;
    }
    assert parts[..i] == parts;
    return Some(ParseState(result, subPackage));
  }

  /** A loop that has thrown on a prefix of the parts has thrown on all of them. */
  lemma {:induction false} WalkThrowsLater(pkg: string, st: ParseState, parts: seq<string>, n: nat)
    requires n <= |parts| && WalkThrows(pkg, st, parts[..n])
    ensures WalkThrows(pkg, st, parts)
    decreases |parts| - n
  {
    if n < |parts| {
      assert parts[..n + 1][..n] == parts[..n];
      WalkThrowsLater(pkg, st, parts, n + 1);
    } else {
      assert parts[..n] == parts;
    }
  }

  /** The body of the loop over the parts: skip the part, or store its file; None where the rewrite throws. */
  method HandlePart(pkg: string, packagePath: string, part: string, files: map<string, string>, bucket: Bucket)
    returns (r: Option<ParseState>)
    requires packagePath == PackagePath(pkg)
    ensures r.None? <==> StepThrows(pkg, ParseState(files, bucket), part)
    ensures r.Some? ==> r.value == Step(pkg, ParseState(files, bucket), part)
  {
    var found, filename, content := ReadSegment(part);
    if !found {
      return Some(ParseState(files, bucket));
    }
    ghost var seg := Segment(filename, content);
    if filename !in CoreFiles && packagePath + bucket.Dir() + filename in files {
      assert IsDuplicate(pkg, ParseState(files, bucket), seg);
      return Some(ParseState(files, bucket));
    }
    var subPackage := Classify(filename, content, bucket);
    var fixed := Some(content);
    if !Contains(content, "package " + pkg) {
      fixed := ReplaceFirstPackageLine(content, PackageLine(pkg, subPackage));
    }
    assert fixed == FixPackage(pkg, subPackage, seg.content);
    if fixed.None? {
      return None;
    }
    return Some(ParseState(files[packagePath + subPackage.Dir() + filename := fixed.value], subPackage));
  }

  /** The first half of the loop body: the file a part names, if it names one. */
  method ReadSegment(part: string) returns (found: bool, filename: string, content: string)
    ensures ParseSegment(part) == if found then Some(Segment(filename, content)) else None
  {
    found, filename, content := false, "", "";
    if IsBlank(part) {
      return;
    }
    var endIndex := IndexOf(part, "\n");
    if endIndex == -1 {
      return;
    }
    found := true;
    filename := Trim(part[..endIndex]);
    content := part[endIndex + 1..];
    if Contains(content, EndMarker) {
      content := Trim(content[..IndexOf(content, EndMarker)]);
    }
  }

  // ---------------------------------------------------------------------
  // properties of the parser

  /** A key the parser may write: the package path, a bucket directory, a file name. */
  ghost predicate IsBucketKey(pkg: string, key: string) {
    exists bucket: Bucket, filename: string :: key == PackagePath(pkg) + bucket.Dir() + filename
  }

  /**
   * A skipped or duplicate segment leaves everything as it was and never
   * throws; a stored one throws exactly when its package rewrite does, and
   * otherwise sets its key under the newly chosen bucket, whatever was
   * there, and nothing else.
   */
  lemma StepSpec(pkg: string, st: ParseState, part: string)
    ensures ParseSegment(part).None? ==> Step(pkg, st, part) == st && !StepThrows(pkg, st, part)
    ensures ParseSegment(part).Some? && IsDuplicate(pkg, st, ParseSegment(part).value) ==> Step(pkg, st, part) == st && !StepThrows(pkg, st, part)
    ensures ParseSegment(part).Some? && !IsDuplicate(pkg, st, ParseSegment(part).value) ==>
      var seg := ParseSegment(part).value;
      var bucket := Classify(seg.filename, seg.content, st.bucket);
      var key := PackagePath(pkg) + bucket.Dir() + seg.filename;
      && (StepThrows(pkg, st, part) <==> FixPackage(pkg, bucket, seg.content).None?)
      && (StepThrows(pkg, st, part) ==> Step(pkg, st, part) == st)
      && (!StepThrows(pkg, st, part) ==>
          && Step(pkg, st, part).bucket == bucket
          && Step(pkg, st, part).files.Keys == st.files.Keys + {key}
          && Some(Step(pkg, st, part).files[key]) == FixPackage(pkg, bucket, seg.content)
          && (forall k :: k in st.files && k != key ==> Step(pkg, st, part).files[k] == st.files[k]))
  {
  }

  /** Handling the same part twice in a row is the same as handling it once. */
  lemma StepIdempotent(pkg: string, st: ParseState, part: string)
    ensures Step(pkg, Step(pkg, st, part), part) == Step(pkg, st, part)
  {
    match ParseSegment(part)
    case None =>
    case Some(seg) =>
      var bucket := Classify(seg.filename, seg.content, st.bucket);
      if !IsDuplicate(pkg, st, seg) && FixPackage(pkg, bucket, seg.content).Some? {
        var st1 := Step(pkg, st, part);
        ClassifySpec(seg.filename, seg.content, st.bucket, bucket);
        var key := PackagePath(pkg) + bucket.Dir() + seg.filename;
        assert key in st1.files;
        if seg.filename in CoreFiles {
          assert Step(pkg, st1, part).files == st1.files[key := FixPackage(pkg, bucket, seg.content).value];
        }
      }
  }

  /**
   * The loop only ever adds keys, and every key it adds or changes is a
   * bucket key of the package; all other keys keep their values.
   */
  lemma {:induction false} WalkSpec(pkg: string, st: ParseState, parts: seq<string>)
    ensures st.files.Keys <= Walk(pkg, st, parts).files.Keys
    ensures forall k :: k in Walk(pkg, st, parts).files && !IsBucketKey(pkg, k) ==> k in st.files && Walk(pkg, st, parts).files[k] == st.files[k]
    decreases |parts|
  {
    if parts != [] {
      var init := Walk(pkg, st, parts[..|parts| - 1]);
      WalkSpec(pkg, st, parts[..|parts| - 1]);
      var part := parts[|parts| - 1];
      StepSpec(pkg, init, part);
      match ParseSegment(part)
      case None =>
      case Some(seg) =>
        if !IsDuplicate(pkg, init, seg) {
          var bucket := Classify(seg.filename, seg.content, init.bucket);
          var key := PackagePath(pkg) + bucket.Dir() + seg.filename;
          assert IsBucketKey(pkg, key);
        }
    }
  }

  /** For a plain package no iteration throws, so neither does the parser. */
  lemma {:induction false} PlainPackageNeverThrows(pkg: string, st: ParseState, parts: seq<string>)
    requires IsPlainPackage(pkg)
    ensures !WalkThrows(pkg, st, parts)
    decreases |parts|
  {
    if parts != [] {
      PlainPackageNeverThrows(pkg, st, parts[..|parts| - 1]);
    }
  }

  /**
   * The parser keeps every key it is given; it adds or changes only bucket
   * keys of the package (the stub's key is one). So an LLM `pom.xml` or
   * `application.yml` never replaces the root ones.
   */
  lemma ParsedSpec(pkg: string, llm: string, files: map<string, string>)
    ensures files.Keys <= Parsed(pkg, llm, files).Keys
    ensures forall k :: k in Parsed(pkg, llm, files) && !IsBucketKey(pkg, k) ==> k in files && Parsed(pkg, llm, files)[k] == files[k]
  {
    var parts := Split(llm, StartMarker);
    var st := Walk(pkg, ParseState(files, ServiceDir), parts);
    WalkSpec(pkg, ParseState(files, ServiceDir), parts);
    StubKeyIsBucketKey(pkg);
    var r := Parsed(pkg, llm, files);
    assert r == st.files || r == st.files[StubKey(pkg) := Stub(pkg, llm)];
  }

  lemma StubKeyIsBucketKey(pkg: string)
    ensures IsBucketKey(pkg, StubKey(pkg))
  {
    assert StubKey(pkg) == PackagePath(pkg) + ServiceDir.Dir() + "GeneratedService.java";
  }

  /**
   * With no start marker the whole text is handled as one segment, and the
   * stub holding the raw text is added on top.
   */
  lemma NoMarkerAddsStub(pkg: string, llm: string, files: map<string, string>)
    requires !Contains(llm, StartMarker)
    ensures Parsed(pkg, llm, files) == Step(pkg, ParseState(files, ServiceDir), llm).files[StubKey(pkg) := Stub(pkg, llm)]
    ensures Contains(Parsed(pkg, llm, files)[StubKey(pkg)], llm)
  {
    var st0 := ParseState(files, ServiceDir);
    var parts := Split(llm, StartMarker);
    assert parts == [llm];
    assert Walk(pkg, st0, parts) == Step(pkg, st0, llm) by {
      assert parts[..0] == [];
    }
    StubSpec(pkg, llm);
    ContainsMiddle("/*\n", llm, "\n*/");
    ContainsTransitive(Stub(pkg, llm), Dump(llm), llm);
  }

  /** A written-out file of a plain package that is not a duplicate is stored under its bucket with its package fixed. */
  lemma StepStoresText(pkg: string, st: ParseState, seg: Segment)
    requires IsCleanName(seg.filename) && !Contains(seg.content, EndMarker)
    requires !IsDuplicate(pkg, st, seg) && IsPlainPackage(pkg)
    ensures var bucket := Classify(seg.filename, seg.content, st.bucket);
      && !StepThrows(pkg, st, SegmentText(seg))
      && Step(pkg, st, SegmentText(seg))
        == ParseState(st.files[PackagePath(pkg) + bucket.Dir() + seg.filename := FixPackage(pkg, bucket, seg.content).value], bucket)
  {
    ParseSegmentText(seg);
    FixPackageSpec(pkg, Classify(seg.filename, seg.content, st.bucket), seg.content);
  }

  /**
   * The duplicate check looks at the previous bucket, not the one the file
   * is about to get. Store a controller, then an entity, then the same
   * controller name again: the check looks under `model/`, finds nothing,
   * and the second controller replaces the first.
   */
  lemma StaleBucketOverwrites(pkg: string, controller: string, entity: string,
                              first: string, entityBody: string, second: string)
    requires IsPlainPackage(pkg)
    requires IsCleanName(controller) && EndsWith(controller, "Controller.java")
    requires IsCleanName(entity) && Classify(entity, entityBody, ControllerDir) == ModelDir
    requires !Contains(first, EndMarker) && !Contains(entityBody, EndMarker) && !Contains(second, EndMarker)
    ensures
      var key := PackagePath(pkg) + "controller/" + controller;
      var parts := [SegmentText(Segment(controller, first)),
                    SegmentText(Segment(entity, entityBody)),
                    SegmentText(Segment(controller, second))];
      var afterTwo := Walk(pkg, ParseState(map[], ServiceDir), parts[..2]).files;
      var afterAll := Walk(pkg, ParseState(map[], ServiceDir), parts).files;
      && key in afterTwo && afterTwo[key] == FixPackage(pkg, ControllerDir, first).value
      && key in afterAll && afterAll[key] == FixPackage(pkg, ControllerDir, second).value
  {
    var pp := PackagePath(pkg);
    var key := pp + "controller/" + controller;
    var st0 := ParseState(map[], ServiceDir);
    var parts := [SegmentText(Segment(controller, first)),
                  SegmentText(Segment(entity, entityBody)),
                  SegmentText(Segment(controller, second))];
    var st1 := ParseState(map[key := FixPackage(pkg, ControllerDir, first).value], ControllerDir);
    var entityKey := pp + "model/" + entity;
    var st2 := ParseState(st1.files[entityKey := FixPackage(pkg, ModelDir, entityBody).value], ModelDir);
    StaleFirstStep(pkg, controller, first);
    StaleSecondStep(pkg, st1, controller, entity, entityBody);
    assert entity != controller by {
      ClassifySpec(entity, entityBody, ControllerDir, ControllerDir);
    }
    StaleThirdStep(pkg, st2, controller, entity, second);
    WalkOfThree(pkg, st0, parts);
    assert st2.files[key] == FixPackage(pkg, ControllerDir, first).value by {
      FirstDifferenceAfterHead(pp, "model/", entity, "controller/", controller);
    }
  }

  /** The loop over three parts is three steps in a row. */
  lemma WalkOfThree(pkg: string, st: ParseState, parts: seq<string>)
    requires |parts| == 3
    ensures Walk(pkg, st, parts[..2]) == Step(pkg, Step(pkg, st, parts[0]), parts[1])
    ensures Walk(pkg, st, parts) == Step(pkg, Walk(pkg, st, parts[..2]), parts[2])
  {
    assert parts[..2][..1] == parts[..1] && parts[..1][..0] == [];
    assert Walk(pkg, st, parts[..1]) == Step(pkg, st, parts[0]);
    assert parts[..2][1] == parts[1];
    assert parts[..|parts| - 1] == parts[..2];
  }

  /** First step of the stale-bucket run: the controller is stored under `controller/`. */
  lemma StaleFirstStep(pkg: string, controller: string, first: string)
    requires IsPlainPackage(pkg)
    requires IsCleanName(controller) && EndsWith(controller, "Controller.java")
    requires !Contains(first, EndMarker)
    ensures Step(pkg, ParseState(map[], ServiceDir), SegmentText(Segment(controller, first)))
      == ParseState(map[PackagePath(pkg) + "controller/" + controller := FixPackage(pkg, ControllerDir, first).value], ControllerDir)
  {
    ClassifySpec(controller, first, ServiceDir, ServiceDir);
    StepStoresText(pkg, ParseState(map[], ServiceDir), Segment(controller, first));
  }

  /** Second step: the entity goes under `model/`, which becomes the bucket. */
  lemma StaleSecondStep(pkg: string, st: ParseState, controller: string, entity: string, entityBody: string)
    requires IsPlainPackage(pkg)
    requires IsCleanName(controller) && EndsWith(controller, "Controller.java")
    requires IsCleanName(entity) && Classify(entity, entityBody, ControllerDir) == ModelDir
    requires !Contains(entityBody, EndMarker)
    requires st.bucket == ControllerDir && st.files.Keys == {PackagePath(pkg) + "controller/" + controller}
    ensures Step(pkg, st, SegmentText(Segment(entity, entityBody)))
      == ParseState(st.files[PackagePath(pkg) + "model/" + entity := FixPackage(pkg, ModelDir, entityBody).value], ModelDir)
  {
    var pp := PackagePath(pkg);
    assert entity != controller by {
      ClassifySpec(entity, entityBody, ControllerDir, ControllerDir);
    }
    HeadCancels(pp + "controller/", entity, controller);
    StepStoresText(pkg, st, Segment(entity, entityBody));
  }

  /** Third step: the controller name is looked up under `model/` and stored again under `controller/`. */
  lemma StaleThirdStep(pkg: string, st: ParseState, controller: string, entity: string, second: string)
    requires IsPlainPackage(pkg)
    requires IsCleanName(controller) && EndsWith(controller, "Controller.java")
    requires !Contains(second, EndMarker) && entity != controller
    requires st.bucket == ModelDir
    requires st.files.Keys == {PackagePath(pkg) + "controller/" + controller, PackagePath(pkg) + "model/" + entity}
    ensures Step(pkg, st, SegmentText(Segment(controller, second))).files
      == st.files[PackagePath(pkg) + "controller/" + controller := FixPackage(pkg, ControllerDir, second).value]
  {
    var pp := PackagePath(pkg);
    ClassifySpec(controller, second, ModelDir, ModelDir);
    FirstDifferenceAfterHead(pp, "model/", controller, "controller/", controller);
    HeadCancels(pp + "model/", controller, entity);
    StepStoresText(pkg, st, Segment(controller, second));
  }

  /** The stale-bucket situation arises, e.g. for `UserController.java` and an `Order.java` entity. */
  lemma StaleBucketExample()
    ensures IsCleanName("UserController.java") && EndsWith("UserController.java", "Controller.java")
    ensures IsCleanName("Order.java") && Classify("Order.java", "@Entity", ControllerDir) == ModelDir
  {
    assert Contains("@Entity", "@Entity") by { assert OccursAt("@Entity", "@Entity", 0); }
  }
}
