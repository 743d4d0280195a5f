/**
 * PromptParsingService: asks the language model to turn the user's prompt
 * into an IntentModel. The reply is narrowed to its JSON object by plain
 * substring work and handed to Jackson; every failure on the way falls back
 * to a fixed minimal intent, so `parse` never throws.
 */
module PromptParsingService {
  import opened Wrappers
  import opened JavaString
  import opened IntentModels
  import opened ExternalLibraries
  import opened LlmClient

  // ---------------------------------------------------------------------
  // extractJson

  const JsonFence := "```json"
  const Fence := "```"

  /**
   * One fence branch of `extractJson`: the text from `start` up to the last
   * fence, trimmed, when that fence lies after `start`; otherwise the text as it is.
   */
  function Narrow(json: string, start: nat): (r: string)
    requires start <= |json|
    ensures IsSubstring(r, json)
  {
    var end := LastIndexOf(json, Fence);
    if end > start then
      TrimIsSubstring(json[start..end]);
      SubstringOfSlice(Trim(json[start..end]), json, start, end);
      Trim(json[start..end])
    else
      assert json == json[0..|json|];
      json
  }

  /** The code-fence step: a ```json fence is preferred to a bare ``` fence. */
  function Unfence(json: string): (r: string)
    ensures IsSubstring(r, json)
  {
    if Contains(json, JsonFence) then
      Narrow(json, IndexOf(json, JsonFence) + 7)
    else if Contains(json, Fence) then
      Narrow(json, IndexOf(json, Fence) + 3)
    else
      assert json == json[0..|json|];
      json
  }

  /**
   * The brace step: from the first `{` through the last `}`. None stands for
   * the exception `substring` throws when the last `}` lies before the first `{`.
   */
  function Braces(json: string): (r: Option<string>)
    ensures r.Some? ==> IsSubstring(r.value, json)
  {
    if Contains(json, "{") && Contains(json, "}") then
      var start := IndexOf(json, "{");
      var end := LastIndexOf(json, "}") + 1;
      if end < start then None else Some(json[start..end])
    else
      assert json == json[0..|json|];
      Some(json)
  }

  /** `extractJson`: trim, strip a code fence, cut to the braces; the result is always a piece of the reply. */
  function ExtractJson(response: string): (r: Option<string>)
    ensures r.Some? ==> IsSubstring(r.value, response)
  {
    var json := Trim(response);
    var r := Braces(Unfence(json));
    TrimIsSubstring(response);
    PieceOfPieces(r, Unfence(json), json, response);
    r
  }

  lemma PieceOfPieces(r: Option<string>, u: string, j: string, s: string)
    requires r.Some? ==> IsSubstring(r.value, u)
    requires IsSubstring(u, j) && IsSubstring(j, s)
    ensures r.Some? ==> IsSubstring(r.value, s)
  {
    SubstringTransitive(u, j, s);
    if r.Some? {
      SubstringTransitive(r.value, u, s);
    }
  }

  /** s holds no character c. */
  predicate Lacks(s: string, c: char) {
    forall k :: 0 <= k < |s| ==> s[k] != c
  }

  lemma OccursAtChar(s: string, c: char, i: int)
    ensures OccursAt(s, [c], i) <==> 0 <= i < |s| && s[i] == c
  {
    if 0 <= i < |s| {
      assert s[i..i + 1][0] == s[i];
    }
  }

  lemma ContainsChar(s: string, c: char)
    ensures Contains(s, [c]) <==> !Lacks(s, c)
  {
    if Contains(s, [c]) {
      var i :| OccursAt(s, [c], i);
      OccursAtChar(s, c, i);
    }
    if !Lacks(s, c) {
      var k :| 0 <= k < |s| && s[k] == c;
      OccursAtChar(s, c, k);
    }
  }

  /** Every `{` of json lies at or after its first `{`, every `}` at or before its last `}`. */
  lemma BraceBounds(json: string)
    ensures forall i :: 0 <= i < |json| && json[i] == '{' ==> 0 <= IndexOf(json, "{") <= i
    ensures forall j :: 0 <= j < |json| && json[j] == '}' ==> j <= LastIndexOf(json, "}")
  {
    forall i | 0 <= i < |json| && json[i] == '{'
      ensures 0 <= IndexOf(json, "{") <= i
    {
      OccursAtChar(json, '{', i);
    }
    forall j | 0 <= j < |json| && json[j] == '}'
      ensures j <= LastIndexOf(json, "}")
    {
      OccursAtChar(json, '}', j);
    }
  }

  /**
   * The brace step throws exactly when both braces occur and every `}` lies
   * at least two places before every `{` (a `}` right before the first `{`
   * gives the empty string instead).
   */
  lemma BracesFailIff(json: string)
    ensures Braces(json).None? <==>
      && !Lacks(json, '{') && !Lacks(json, '}')
      && forall i, j :: 0 <= i < |json| && 0 <= j < |json| && json[i] == '{' && json[j] == '}' ==> j + 1 < i
  {
    ContainsChar(json, '{');
    ContainsChar(json, '}');
    BraceBounds(json);
    if !Lacks(json, '{') && !Lacks(json, '}') {
      var start := IndexOf(json, "{");
      var last := LastIndexOf(json, "}");
      OccursAtChar(json, '{', start);
      OccursAtChar(json, '}', last);
    }
  }

  /** The first `{` and the last `}` of a text that has a `{` no later than a `}`. */
  lemma FirstAndLastBrace(json: string, i: nat, j: nat)
    requires i <= j < |json| && json[i] == '{' && json[j] == '}'
    ensures var start, last := IndexOf(json, "{"), LastIndexOf(json, "}");
      && 0 <= start <= i && j <= last < |json|
      && json[start] == '{' && json[last] == '}'
      && Braces(json) == Some(json[start..last + 1])
  {
    ContainsChar(json, '{');
    ContainsChar(json, '}');
    BraceBounds(json);
    OccursAtChar(json, '{', IndexOf(json, "{"));
    OccursAtChar(json, '}', LastIndexOf(json, "}"));
  }

  /** Nothing before the first `{` is a `{`, nothing after the last `}` is a `}`. */
  lemma OutsideBraces(json: string, start: nat, last: nat)
    requires start <= last < |json|
    requires start == IndexOf(json, "{") && last == LastIndexOf(json, "}")
    ensures Lacks(json[..start], '{') && Lacks(json[last + 1..], '}')
  {
    forall k | 0 <= k < start
      ensures json[..start][k] != '{'
    {
      OccursAtChar(json, '{', k);
    }
    var post := json[last + 1..];
    forall k | 0 <= k < |post|
      ensures post[k] != '}'
    {
      OccursAtChar(json, '}', last + 1 + k);
    }
  }

  lemma ThreeParts(s: string, a: nat, b: nat)
    requires a <= b <= |s|
    ensures s == s[..a] + s[a..b] + s[b..]
  {
  }

  /**
   * When some `{` comes no later than some `}`, the brace step yields the span
   * from the first `{` through the last `}`: it starts with `{`, ends with `}`,
   * no `{` comes before it and no `}` after it.
   */
  lemma BracesSpan(json: string, i: nat, j: nat)
    requires i <= j < |json| && json[i] == '{' && json[j] == '}'
    ensures Braces(json).Some?
    ensures var x := Braces(json).value;
      && |x| >= 2 && x[0] == '{' && x[|x| - 1] == '}'
      && exists pre, post :: json == pre + x + post && Lacks(pre, '{') && Lacks(post, '}')
  {
    FirstAndLastBrace(json, i, j);
    var start, last := IndexOf(json, "{"), LastIndexOf(json, "}");
    OutsideBraces(json, start, last);
    ThreeParts(json, start, last + 1);
    var x := json[start..last + 1];
    assert x[0] == json[start] && x[|x| - 1] == json[last];
    assert json == json[..start] + x + json[last + 1..];
  }

  /** Without a `{` or without a `}`, the brace step keeps the text whole. */
  lemma BracesKeepUnpaired(json: string)
    requires Lacks(json, '{') || Lacks(json, '}')
    ensures Braces(json) == Some(json)
  {
    ContainsChar(json, '{');
    ContainsChar(json, '}');
  }

  /** A fenced `json` block with a non-empty body is narrowed to its trimmed body. */
  lemma JsonFencedReply(body: string)
    requires body != ""
    ensures Unfence(JsonFence + body + Fence) == Trim(body)
  {
    StartsWithConcat(JsonFence, body);
    StartsWithKept(JsonFence + body, JsonFence, Fence);
    IndexOfPrefix(JsonFence + body + Fence, JsonFence);
    NarrowFenced(JsonFence, body);
  }

  /** A bare fenced block with a non-empty body and no `json` fence is narrowed to its trimmed body. */
  lemma BareFencedReply(body: string)
    requires body != "" && !Contains(Fence + body + Fence, JsonFence)
    ensures Unfence(Fence + body + Fence) == Trim(body)
  {
    StartsWithConcat(Fence, body);
    StartsWithKept(Fence + body, Fence, Fence);
    IndexOfPrefix(Fence + body + Fence, Fence);
    NarrowFenced(Fence, body);
  }

  /** Narrowing from just after an opening fence to a closing fence at the very end keeps the trimmed body. */
  lemma NarrowFenced(open: string, body: string)
    requires body != ""
    ensures Narrow(open + body + Fence, |open|) == Trim(body)
  {
    var json := open + body + Fence;
    assert OccursAt(json, Fence, |json| - |Fence|);
    assert LastIndexOf(json, Fence) == |open| + |body|;
    MiddleSlice(open, body, Fence);
  }

  // ---------------------------------------------------------------------
  // parse

  /** `createMinimalIntent`: the constructor defaults with a generic service and package name. */
  function MinimalIntent(): (intent: IntentModel)
    ensures intent.serviceName == Some("microservice")
    ensures intent.packageName == Some("com.example.service")
    ensures intent.(serviceName := None, packageName := None) == DefaultIntent().(serviceName := None, packageName := None)
  {
    DefaultIntent().(serviceName := Some("microservice"), packageName := Some("com.example.service"))
  }

  /**
   * `parse(prompt)` with the client `llm` and Jackson's reader from `libs`:
   * the minimal intent, or what Jackson read from a piece of the reply: an
   * intent, or null (None).
   */
  function Parse(llm: Client, libs: Libraries, prompt: string): Option<IntentModel>
  {
    var reply := llm(IntentExtraction, prompt);
    if StartsWith(reply, "ERROR") then Some(MinimalIntent())
    else match ExtractJson(reply)
      case None => Some(MinimalIntent())
      case Some(json) =>
        match libs.readIntent(json)
        case Threw => Some(MinimalIntent())
        case ReadNull => None
        case Value(intent) => Some(intent)
  }

  /**
   * Whatever `parse` returns other than the minimal intent was read by Jackson
   * from a piece of the model's reply.
   */
  lemma ParseReadsReply(llm: Client, libs: Libraries, prompt: string)
    ensures var intent := Parse(llm, libs, prompt);
      && (intent.None? ==>
        exists json :: IsSubstring(json, llm(IntentExtraction, prompt)) && libs.readIntent(json) == ReadNull)
      && (intent.Some? ==>
        (|| intent.value == MinimalIntent()
         || exists json :: IsSubstring(json, llm(IntentExtraction, prompt)) && libs.readIntent(json) == Value(intent.value)))
  {
  }

  /**
   * The fallback policy: a reply starting with ERROR, a reply whose brace
   * cut throws, and a piece Jackson cannot read all give the minimal intent.
   */
  lemma ParseFallsBack(llm: Client, libs: Libraries, prompt: string)
    ensures var reply := llm(IntentExtraction, prompt);
      (|| StartsWith(reply, "ERROR")
       || ExtractJson(reply).None?
       || libs.readIntent(ExtractJson(reply).value).Threw?)
      ==> Parse(llm, libs, prompt) == Some(MinimalIntent())
  {
  }

  /** Otherwise the result is what Jackson reads from the extracted piece: an intent, or null. */
  lemma ParseReadsExtractedJson(llm: Client, libs: Libraries, prompt: string, json: string)
    requires !StartsWith(llm(IntentExtraction, prompt), "ERROR")
    requires ExtractJson(llm(IntentExtraction, prompt)) == Some(json)
    requires !libs.readIntent(json).Threw?
    ensures libs.readIntent(json).ReadNull? ==> Parse(llm, libs, prompt) == None
    ensures libs.readIntent(json).Value? ==> Parse(llm, libs, prompt) == Some(libs.readIntent(json).value)
  {
  }
}
