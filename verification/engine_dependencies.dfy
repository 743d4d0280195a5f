/**
 * The part of CodeGenerationEngine that builds pom.xml: it mines the LLM's
 * reply for a JSON array of dependencies (first balanced `[...]`, else first
 * balanced `{...}`), turns each element into a `<dependency>` entry and falls
 * back to the Kafka starter set when nothing was appended.
 */
module EngineDependencies {
  import opened Wrappers
  import opened JavaString
  import opened Json
  import opened SourceText
  import opened IntentModels
  import opened ExternalLibraries

  // ---------------------------------------------------------------------
  // bracket matching

  /** How one character moves the nesting counter. */
  function Delta(c: char, open: char, close: char): int {
    if c == open then 1 else if c == close then -1 else 0
  }

  /** The net nesting change over s. */
  function Balance(s: string, open: char, close: char): int {
    if s == [] then 0 else Delta(s[0], open, close) + Balance(s[1..], open, close)
  }

  /** The counter findMatchingBracket holds after reading text[i..k+1] from `depth`. */
  function DepthAfter(text: string, i: nat, k: nat, depth: int, open: char, close: char): int
    requires i <= k + 1 <= |text|
  {
    depth + Balance(text[i..k + 1], open, close)
  }

  /** The counter after reading text[k], for the opening bracket at `start`. */
  function Counter(text: string, start: nat, k: nat, open: char, close: char): int
    requires start < k < |text|
  {
    DepthAfter(text, start + 1, k, 1, open, close)
  }

  /** The loop of findMatchingBracket resumed at index i with the counter at `depth`. */
  function MatchFrom(text: string, i: nat, depth: int, open: char, close: char): (r: int)
    requires i <= |text|
    ensures r == -1 || i <= r < |text|
    decreases |text| - i
  {
    if i == |text| then -1
    else if text[i] == open then MatchFrom(text, i + 1, depth + 1, open, close)
    else if text[i] == close then
      (if depth - 1 == 0 then i else MatchFrom(text, i + 1, depth - 1, open, close))
    else MatchFrom(text, i + 1, depth, open, close)
  }

  /** `findMatchingBracket(text, start, open, close)` as a function. */
  function MatchingBracket(text: string, start: nat, open: char, close: char): (r: int)
    ensures r == -1 || start < r < |text|
  {
    if start + 1 > |text| then -1 else MatchFrom(text, start + 1, 1, open, close)
  }

  lemma BalanceStep(text: string, i: nat, k: nat, open: char, close: char)
    requires i <= k < |text|
    ensures Balance(text[i..k + 1], open, close) == Delta(text[i], open, close) + Balance(text[i + 1..k + 1], open, close)
  {
    assert text[i..k + 1][1..] == text[i + 1..k + 1];
  }

  /**
   * Resumed at i with a positive counter, the loop stops at the first index
   * where the counter reaches zero, and reports -1 when it never does.
   */
  lemma {:induction false} MatchFromSpec(text: string, i: nat, depth: int, open: char, close: char)
    requires i <= |text| && depth >= 1
    requires open != close
    ensures var r := MatchFrom(text, i, depth, open, close);
      r == -1 ==> forall k :: i <= k < |text| ==> DepthAfter(text, i, k, depth, open, close) > 0
    ensures var r := MatchFrom(text, i, depth, open, close);
      r != -1 ==>
        && i <= r < |text| && text[r] == close
        && DepthAfter(text, i, r, depth, open, close) == 0
        && forall k :: i <= k < r ==> DepthAfter(text, i, k, depth, open, close) > 0
    decreases |text| - i
  {
    if i < |text| {
      var d := depth + Delta(text[i], open, close);
      BalanceStep(text, i, i, open, close);
      assert text[i + 1..i + 1] == [];
      if d == 0 {
        assert text[i] == close;
      } else {
        MatchFromSpec(text, i + 1, d, open, close);
        forall k | i + 1 <= k < |text|
          ensures DepthAfter(text, i, k, depth, open, close) == DepthAfter(text, i + 1, k, d, open, close)
        {
          BalanceStep(text, i, k, open, close);
        }
      }
    }
  }

  /**
   * The match of the bracket at `start` is the first later index at which
   * the brackets read since `start` (including it) balance; -1 when they
   * never do.
   */
  lemma MatchingBracketSpec(text: string, start: nat, open: char, close: char)
    requires open != close
    ensures var r := MatchingBracket(text, start, open, close);
      r == -1 ==> forall k :: start < k < |text| ==> Counter(text, start, k, open, close) > 0
    ensures var r := MatchingBracket(text, start, open, close);
      r != -1 ==>
        && start < r < |text| && text[r] == close
        && Counter(text, start, r, open, close) == 0
        && forall k :: start < k < r ==> Counter(text, start, k, open, close) > 0
  {
    if start + 1 <= |text| {
      MatchFromSpec(text, start + 1, 1, open, close);
    }
  }

  /** `findMatchingBracket`: count nesting from `start + 1` until the counter returns to zero. */
  method FindMatchingBracket(text: string, start: nat, open: char, close: char) returns (r: int)
    ensures r == MatchingBracket(text, start, open, close)
  {
    var count := 1;
    var i := start + 1;
    while i < |text|
      invariant start + 1 <= |text| ==> i <= |text| && MatchFrom(text, i, count, open, close) == MatchingBracket(text, start, open, close)
      invariant start + 1 > |text| ==> i == start + 1
      decreases |text| - i
    {
      if text[i] == open {
        count := count + 1;
      } else if text[i] == close {
        count := count - 1;
        if count == 0 {
          return i;
        }
      }
      i := i + 1;
    }
    return -1;
  }

  // ---------------------------------------------------------------------
  // the JSON block

  /** A balanced bracket block: opens with `open`, closes with `close`, and no proper prefix balances. */
  predicate IsBalancedBlock(r: string, open: char, close: char) {
    && |r| >= 2 && r[0] == open && r[|r| - 1] == close
    && Balance(r, open, close) == 0
    && forall j :: 1 <= j < |r| ==> Balance(r[..j], open, close) > 0
  }

  /** The block from the first `open` to its match, or "" when there is none. */
  function BracketBlock(text: string, open: char, close: char): string {
    var s := IndexOf(text, [open]);
    if s == -1 then ""
    else
      var e := MatchingBracket(text, s, open, close);
      if e == -1 then "" else text[s..e + 1]
  }

  /** The bracket block, when there is one, is a balanced piece of the text. */
  lemma BracketBlockSpec(text: string, open: char, close: char)
    requires open != close
    ensures var r := BracketBlock(text, open, close);
      r != "" ==> IsSubstring(r, text) && IsBalancedBlock(r, open, close)
  {
    var s := IndexOf(text, [open]);
    if s != -1 {
      var e := MatchingBracket(text, s, open, close);
      MatchingBracketSpec(text, s, open, close);
      if e != -1 {
        var r := text[s..e + 1];
        assert text[s] == open by { assert text[s..s + 1] == [open]; }
        BlockPrefixBalances(text, s, e, r, open, close);
        assert r[..|r|] == r;
      }
    }
  }

  /** Every prefix of the block r from `s` to `e` balances to what the counter held after its last character. */
  lemma BlockPrefixBalances(text: string, s: nat, e: nat, r: string, open: char, close: char)
    requires s < e < |text| && text[s] == open && open != close && r == text[s..e + 1]
    ensures forall j :: 1 <= j <= |r| ==>
      Balance(r[..j], open, close) == if j == 1 then 1 else Counter(text, s, s + j - 1, open, close)
  {
    forall j | 1 <= j <= |r|
      ensures Balance(r[..j], open, close) == if j == 1 then 1 else Counter(text, s, s + j - 1, open, close)
    {
      assert r[..j] == text[s..s + j];
      BalanceStep(text, s, s + j - 1, open, close);
      if j == 1 {
        assert text[s + 1..s + 1] == [];
      }
    }
  }

  /** `extractJsonBlock`: the first balanced `[...]`, else the first balanced `{...}`, else "". */
  function JsonBlock(text: string): string {
    var a := BracketBlock(text, '[', ']');
    if a != "" then a else BracketBlock(text, '{', '}')
  }

  /**
   * The extracted block is a balanced array or object taken from the text,
   * and an array wins whenever the first `[` has a match.
   */
  lemma JsonBlockSpec(text: string)
    ensures var r := JsonBlock(text);
      r != "" ==> IsSubstring(r, text) && (IsBalancedBlock(r, '[', ']') || IsBalancedBlock(r, '{', '}'))
    ensures BracketBlock(text, '[', ']') != "" ==> JsonBlock(text) == BracketBlock(text, '[', ']')
  {
    BracketBlockSpec(text, '[', ']');
    BracketBlockSpec(text, '{', '}');
  }

  /** `extractJsonBlock(text)`. */
  method ExtractJsonBlock(text: string) returns (r: string)
    ensures r == JsonBlock(text)
  {
    var arrayStart := IndexOf(text, "[");
    if arrayStart != -1 {
      var arrayEnd := FindMatchingBracket(text, arrayStart, '[', ']');
      if arrayEnd != -1 {
        return text[arrayStart..arrayEnd + 1];
      }
    }
    var objStart := IndexOf(text, "{");
    if objStart != -1 {
      var objEnd := FindMatchingBracket(text, objStart, '{', '}');
      if objEnd != -1 {
        return text[objStart..objEnd + 1];
      }
    }
    return "";
  }

  /** `cleanLlmOutput`: "[]" for a blank reply, else the JSON block of the scrubbed reply, "[]" when there is none. */
  function CleanedOutput(llm: string, scrub: string -> string): string {
    if IsBlank(llm) then "[]"
    else
      var json := JsonBlock(scrub(llm));
      if json == "" then "[]" else json
  }

  /** What the dependency reader is given: "[]" or a balanced array or object. */
  lemma CleanedOutputSpec(llm: string, scrub: string -> string)
    ensures var r := CleanedOutput(llm, scrub);
      r == "[]" || IsBalancedBlock(r, '[', ']') || IsBalancedBlock(r, '{', '}')
    ensures IsBlank(llm) ==> CleanedOutput(llm, scrub) == "[]"
  {
    if !IsBlank(llm) {
      JsonBlockSpec(scrub(llm));
    }
  }

  /** `cleanLlmOutput(llmResponse)`. */
  method CleanLlmOutput(llm: string, libs: Libraries) returns (r: string)
    ensures r == CleanedOutput(llm, libs.scrub)
  {
    if IsBlank(llm) {
      return "[]";
    }
    var response := libs.scrub(llm);
    var json := ExtractJsonBlock(response);
    r := if json == "" then "[]" else json;
  }

  // ---------------------------------------------------------------------
  // dependencies

  const DependencyOpen := "    <dependency>\n"
  const DependencyClose := "    </dependency>\n"

  /** One `<tag>value</tag>` line inside a dependency entry. */
  function Element(tag: string, value: string): string {
    "        <" + tag + ">" + value + "</" + tag + ">\n"
  }

  /** `appendDependency`: the `<dependency>` entry of one mined element. */
  function DependencyXml(dep: Json): string {
    Concat(DependencyLines(dep))
  }

  function DependencyLines(dep: Json): seq<string> {
    [ DependencyOpen,
      Element("groupId", PathText(dep, "groupId")),
      Element("artifactId", PathText(dep, "artifactId")),
      if Has(dep, "version") then Element("version", PathText(dep, "version")) else "",
      DependencyClose ]
  }

  /**
   * An entry carries the element's groupId and artifactId text (empty when
   * missing), and a version line when the element has a "version" member;
   * without one, the entry is just the two lines between the tags.
   */
  lemma DependencyXmlSpec(dep: Json)
    ensures StartsWith(DependencyXml(dep), DependencyOpen)
    ensures Contains(DependencyXml(dep), Element("groupId", PathText(dep, "groupId")))
    ensures Contains(DependencyXml(dep), Element("artifactId", PathText(dep, "artifactId")))
    ensures Has(dep, "version") ==> Contains(DependencyXml(dep), Element("version", PathText(dep, "version")))
    ensures !Has(dep, "version") ==>
      DependencyXml(dep) == DependencyOpen + Element("groupId", PathText(dep, "groupId"))
        + Element("artifactId", PathText(dep, "artifactId")) + DependencyClose
  {
    var parts := DependencyLines(dep);
    ConcatOfFive(parts[0], parts[1], parts[2], parts[3], parts[4]);
    assert parts == [parts[0], parts[1], parts[2], parts[3], parts[4]];
    if !Has(dep, "version") {
      assert parts[0] + parts[1] + parts[2] + "" == parts[0] + parts[1] + parts[2];
    }
    ConcatContainsEach(parts);
    assert Contains(Concat(parts), parts[1]) && Contains(Concat(parts), parts[2]) && Contains(Concat(parts), parts[3]);
  }

  lemma ConcatOfFive(a: string, b: string, c: string, d: string, e: string)
    ensures Concat([a, b, c, d, e]) == a + b + c + d + e
  {
    assert [a, b, c, d, e][1..] == [b, c, d, e] && [b, c, d, e][1..] == [c, d, e];
    assert [c, d, e][1..] == [d, e] && [d, e][1..] == [e] && [e][1..] == [];
    assert Concat([e]) == e;
    assert Concat([d, e]) == d + e;
    assert Concat([c, d, e]) == c + (d + e);
    assert Concat([b, c, d, e]) == b + (c + (d + e));
    assert a + (b + (c + (d + e))) == a + b + c + d + e;
  }

  /** The entries of the given elements, in order, as the loop appends them. */
  function DependencyEntries(items: seq<Json>): string {
    if items == [] then "" else DependencyEntries(items[..|items| - 1]) + DependencyXml(items[|items| - 1])
  }

  /** The entries of a non-empty list open with a dependency entry. */
  lemma {:induction false} DependencyEntriesOpen(items: seq<Json>)
    requires items != []
    ensures StartsWith(DependencyEntries(items), DependencyOpen)
    decreases |items|
  {
    var init := items[..|items| - 1];
    var last := DependencyXml(items[|items| - 1]);
    if init == [] {
      DependencyXmlSpec(items[0]);
      assert DependencyEntries(items) == "" + last;
      assert "" + last == last;
    } else {
      DependencyEntriesOpen(init);
      StartsWithKept(DependencyEntries(init), DependencyOpen, last);
    }
  }

  /** Every element's entry is in the entries text. */
  lemma DependencyEntriesContainEach(items: seq<Json>)
    ensures forall k :: 0 <= k < |items| ==> Contains(DependencyEntries(items), DependencyXml(items[k]))
  {
    forall k | 0 <= k < |items|
      ensures Contains(DependencyEntries(items), DependencyXml(items[k]))
    {
      DependencyEntriesContainOne(items, k);
    }
  }

  /** The k-th element's entry is in the entries text. */
  lemma {:induction false} DependencyEntriesContainOne(items: seq<Json>, k: nat)
    requires k < |items|
    ensures Contains(DependencyEntries(items), DependencyXml(items[k]))
    decreases |items|
  {
    var init := items[..|items| - 1];
    var last := DependencyXml(items[|items| - 1]);
    if k == |items| - 1 {
      ContainsSuffix(DependencyEntries(init), last);
    } else {
      DependencyEntriesContainOne(init, k);
      assert init[k] == items[k];
      ContainsPrefix(DependencyEntries(init), last);
      ContainsTransitive(DependencyEntries(items), DependencyEntries(init), DependencyXml(items[k]));
    }
  }

  /** The Kafka starter set used when nothing was appended. */
  const KafkaDependencies :=
    "<dependency>\n"
    + "    <groupId>org.springframework.kafka</groupId>\n"
    + "    <artifactId>spring-kafka</artifactId>\n"
    + "</dependency>\n"
    + "<dependency>\n"
    + "    <groupId>org.springframework.boot</groupId>\n"
    + "    <artifactId>spring-boot-starter-web</artifactId>\n"
    + "</dependency>\n"


  /** The elements the loop visits: those of a top-level JSON array, none when the reader fails or finds no array. */
  function MinedItems(llm: string, libs: Libraries): seq<Json> {
    ArrayItems(libs.readTree(CleanedOutput(llm, libs.scrub)))
  }

  /** The elements of a parsed top-level array; none for any other tree or a failed read. */
  function ArrayItems(root: Option<Json>): seq<Json> {
    if root.Some? && root.value.JArray? then root.value.items else []
  }

  /** `buildDependenciesFromLlm`: the mined entries, or the Kafka set when there are none. */
  function DependenciesXml(llm: string, libs: Libraries): string {
    var deps := DependencyEntries(MinedItems(llm, libs));
    if deps == "" then KafkaDependencies else deps
  }

  /**
   * The Kafka fallback is used exactly when no dependency was mined;
   * otherwise every mined element has its entry.
   */
  lemma DependenciesXmlSpec(llm: string, libs: Libraries)
    ensures DependenciesXml(llm, libs) == KafkaDependencies <==> MinedItems(llm, libs) == []
    ensures forall k :: 0 <= k < |MinedItems(llm, libs)| ==>
      Contains(DependenciesXml(llm, libs), DependencyXml(MinedItems(llm, libs)[k]))
  {
    var items := MinedItems(llm, libs);
    DependencyEntriesContainEach(items);
    if items != [] {
      EntriesAreNotKafka(items);
    }
  }

  /** Mined entries open with an indented `<dependency>`, so they are never empty and never the Kafka set. */
  lemma EntriesAreNotKafka(items: seq<Json>)
    requires items != []
    ensures DependencyEntries(items) != "" && DependencyEntries(items) != KafkaDependencies
  {
    var deps := DependencyEntries(items);
    DependencyEntriesOpen(items);
    assert deps[0] == DependencyOpen[0] == ' ';
    assert KafkaDependencies[0] == '<';
  }

  /** `buildDependenciesFromLlm(llmOutput)`: a StringBuilder fed by a loop over the mined elements. */
  method BuildDependenciesFromLlm(llm: string, libs: Libraries) returns (deps: string)
    ensures deps == DependenciesXml(llm, libs)
  {
    deps := "";
    var cleaned := CleanLlmOutput(llm, libs);
    var root := libs.readTree(cleaned);
    var items := ArrayItems(root);
    var i := 0;
    while i < |items|
      invariant 0 <= i <= |items|
      invariant deps == DependencyEntries(items[..i])
    {
      assert items[..i + 1][..i] == items[..i];
      deps := deps + DependencyXml(items[i]);
      i := i + 1;
    }
    assert items[..i] == items;
    assert items == MinedItems(llm, libs);
    assert deps == DependencyEntries(MinedItems(llm, libs));
    if |deps| == 0 {
      deps := KafkaDependencies;
    }
  }

  // ---------------------------------------------------------------------
  // pom.xml

  function PomHead(): string {
    "            <?xml version=\"1.0\" encoding=\"UTF-8\"?>\n"
    + "            <project xmlns=\"http://maven.apache.org/POM/4.0.0\"\n"
    + "                     xmlns:xsi=\"http://www.w3.org/2001/XMLSchema-instance\"\n"
    + "                     xsi:schemaLocation=\"http://maven.apache.org/POM/4.0.0 https://maven.apache.org/xsd/maven-4.0.0.xsd\">\n"
    + "                <modelVersion>4.0.0</modelVersion>\n"
    + "                <parent>\n"
    + "                    <groupId>org.springframework.boot</groupId>\n"
    + "                    <artifactId>spring-boot-starter-parent</artifactId>\n"
    + "                    <version>3.4.1</version>\n"
    + "                </parent>\n"
  }

  /** A top-level `<tag>value</tag>` line of the pom. */
  function PomElement(tag: string, value: string): string {
    "                <" + tag + ">" + value + "</" + tag + ">\n"
  }

  const PomIndent := "                "
  const PomVersion := "0.0.1-SNAPSHOT"
  const PomTail := "                </dependencies>\n            </project>\n"

  /** The `<dependencies>` block around the given entries. */
  function DependenciesBlock(depsXml: string): string {
    "<dependencies>\n" + depsXml + "\n"
  }

  /** The pom text for the intent around the given dependency entries: the fixed head, then the project's own elements. */
  function PomText(intent: IntentModel, depsXml: string): string {
    PomHead() + PomBody(intent, depsXml)
  }

  /** Everything after the parent block: coordinates, name, the dependencies and the closing tags. */
  function PomBody(intent: IntentModel, depsXml: string): string {
    Concat([
      PomElement("groupId", Text(intent.packageName)),
      PomElement("artifactId", Text(intent.serviceName)),
      PomElement("version", PomVersion),
      PomElement("name", Text(intent.serviceName)),
      PomIndent + DependenciesBlock(depsXml),
      PomTail])
  }

  /**
   * The pom carries the Spring Boot parent, the intent's package name as
   * groupId, its service name as artifactId, and the given dependency
   * entries inside `<dependencies>`.
   */
  lemma PomTextSpec(intent: IntentModel, depsXml: string)
    ensures StartsWith(PomText(intent, depsXml), PomHead())
    ensures Contains(PomText(intent, depsXml), PomElement("groupId", Text(intent.packageName)))
    ensures Contains(PomText(intent, depsXml), PomElement("artifactId", Text(intent.serviceName)))
    ensures Contains(PomText(intent, depsXml), DependenciesBlock(depsXml))
  {
    var body := PomBody(intent, depsXml);
    PomBodySpec(intent, depsXml);
    StartsWithConcat(PomHead(), body);
    ContainsSuffix(PomHead(), body);
    ContainsTransitive(PomText(intent, depsXml), body, PomElement("groupId", Text(intent.packageName)));
    ContainsTransitive(PomText(intent, depsXml), body, PomElement("artifactId", Text(intent.serviceName)));
    ContainsTransitive(PomText(intent, depsXml), body, DependenciesBlock(depsXml));
  }

  /** The coordinates and the dependencies block occur in the pom's body. */
  lemma PomBodySpec(intent: IntentModel, depsXml: string)
    ensures Contains(PomBody(intent, depsXml), PomElement("groupId", Text(intent.packageName)))
    ensures Contains(PomBody(intent, depsXml), PomElement("artifactId", Text(intent.serviceName)))
    ensures Contains(PomBody(intent, depsXml), DependenciesBlock(depsXml))
  {
    var parts := [
      PomElement("groupId", Text(intent.packageName)),
      PomElement("artifactId", Text(intent.serviceName)),
      PomElement("version", PomVersion),
      PomElement("name", Text(intent.serviceName)),
      PomIndent + DependenciesBlock(depsXml),
      PomTail];
    ConcatContainsEach(parts);
    assert Contains(Concat(parts), parts[0]) && Contains(Concat(parts), parts[1]) && Contains(Concat(parts), parts[4]);
    ContainsSuffix(PomIndent, DependenciesBlock(depsXml));
    ContainsTransitive(Concat(parts), parts[4], DependenciesBlock(depsXml));
  }

  /** `generatePomDynamic(intent, llmOutput)` as a function. */
  function Pom(intent: IntentModel, llm: string, libs: Libraries): string {
    PomText(intent, DependenciesXml(llm, libs))
  }

  /** `generatePomDynamic(intent, llmOutput)`. */
  method GeneratePomDynamic(intent: IntentModel, llm: string, libs: Libraries) returns (pom: string)
    ensures pom == Pom(intent, llm, libs)
  {
    var depsXml := BuildDependenciesFromLlm(llm, libs);
    pom := PomText(intent, depsXml);
  }
}
