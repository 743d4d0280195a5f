/**
 * MockLlmClient: a canned LLM. Asked for a JSON intent (the system prompt
 * mentions "JSON object") it returns one of two fixed intents; otherwise it
 * returns a code snippet, a planted-secret line when the prompt asks for a
 * violation.
 */
module MockLlmClient {
  import opened JavaString
  import GS = GovernanceService

  const IntentRequestMarker := "JSON object"

  /** The "auth" member of the customer intent. */
  function AuthLine(auth: string): string {
    "    \"auth\": \"" + auth + "\",\n"
  }

  /** The "persistence" member of the customer intent. */
  function PersistenceLine(persistence: string): string {
    "    \"persistence\": \"" + persistence + "\",\n"
  }

  const CustomerHead :=
    "\n"
    + "    \"serviceName\": \"customer-service\",\n"
    + "    \"packageName\": \"com.customer.gen\",\n"
    + "    \"language\": \"JAVA\",\n"
    + "    \"framework\": \"SPRING_BOOT\",\n"
    + "    \"architecture\": \"LAYERED\",\n"
    + "    \"serviceType\": \"AUTH\",\n"

  const CustomerDatabaseLine := "    \"database\": \"MYSQL\",\n"

  const CustomerTail :=
    "    \"port\": 8082,\n"
    + "    \"entities\": [\n"
    + "        {\n"
    + "            \"name\": \"Customer\",\n"
    + "            \"fields\": [\n"
    + "                {\"name\": \"id\", \"type\": \"Long\"},\n"
    + "                {\"name\": \"username\", \"type\": \"String\"},\n"
    + "                {\"name\": \"password\", \"type\": \"String\"},\n"
    + "                {\"name\": \"email\", \"type\": \"String\"}\n"
    + "            ]\n"
    + "        }\n"
    + "    ]\n"
    + "}\n"

  /** The shape every canned reply has: a fixed head, a middle part, a fixed tail. */
  lemma HeadMiddleTail(head: string, opener: string, middle: string, tail: string)
    requires StartsWith(head, opener)
    ensures StartsWith(head + middle + tail, opener)
    ensures Contains(head + middle + tail, middle)
  {
    ContainsMiddle(head, middle, tail);
    StartsWithKept(head, opener, middle + tail);
    assert head + middle + tail == head + (middle + tail);
  }

  /** The shape of the customer intent: a head, two varying lines and the fixed lines around them. */
  lemma ContainsSecondAndFourth(a: string, opener: string, b: string, c: string, d: string, e: string)
    requires StartsWith(a, opener)
    ensures StartsWith(a + b + c + d + e, opener)
    ensures Contains(a + b + c + d + e, b) && Contains(a + b + c + d + e, d)
  {
    ContainsSuffix(a, b);
    ContainsKept(a + b, b, c);
    ContainsKept(a + b + c, b, d);
    ContainsKept(a + b + c + d, b, e);
    ContainsSuffix(a + b + c, d);
    ContainsKept(a + b + c + d, d, e);
    StartsWithKept(a, opener, b);
    StartsWithKept(a + b, opener, c);
    StartsWithKept(a + b + c, opener, d);
    StartsWithKept(a + b + c + d, opener, e);
  }

  /** A reply that opens with "{" or "//" cannot be an "ERROR" reply. */
  lemma NotAnErrorReply(reply: string)
    requires StartsWith(reply, "{") || StartsWith(reply, "//")
    ensures !StartsWith(reply, "ERROR")
  {
    assert reply[..|reply|][0] == reply[0];
  }

  /** The customer-service intent with the given auth and persistence values. */
  function CustomerIntentJson(auth: string, persistence: string): (json: string)
    ensures StartsWith(json, "{")
    ensures Contains(json, AuthLine(auth)) && Contains(json, PersistenceLine(persistence))
  {
    ContainsSecondAndFourth("{" + CustomerHead, "{", AuthLine(auth), CustomerDatabaseLine, PersistenceLine(persistence), CustomerTail);
    "{" + CustomerHead + AuthLine(auth) + CustomerDatabaseLine + PersistenceLine(persistence) + CustomerTail
  }

  const GenericBody :=
    "\n"
    + "    \"serviceName\": \"micro-service\",\n"
    + "    \"packageName\": \"com.example.service\",\n"
    + "    \"language\": \"JAVA\",\n"
    + "    \"framework\": \"SPRING_BOOT\",\n"
    + "    \"architecture\": \"LAYERED\",\n"
    + "    \"serviceType\": \"GENERAL\",\n"
    + "    \"auth\": \"NONE\",\n"
    + "    \"database\": \"H2\",\n"
    + "    \"persistence\": \"NONE\",\n"
    + "    \"port\": 8082\n"
    + "}\n"

  /** The generic micro-service intent. */
  function GenericIntentJson(): (json: string)
    ensures StartsWith(json, "{")
  {
    StartsWithConcat("{", GenericBody);
    "{" + GenericBody
  }

  const ViolationComment := " Security violation in generated code\n"
  const ViolationDeclaration := "public String aws_key = \""
  const ViolationHead := ViolationComment + ViolationDeclaration
  const PlantedKey := "AKIAQWERT12345678901234567890"

  /** The reply that plants an AWS-style access key. */
  function ViolationReply(): (reply: string)
    ensures StartsWith(reply, "//")
    ensures Contains(reply, "AKIA")
  {
    StartsWithConcat("//", ViolationHead);
    HeadMiddleTail("//" + ViolationHead, "//", PlantedKey, "\";");
    assert OccursAt(PlantedKey, "AKIA", 0);
    ContainsTransitive("//" + ViolationHead + PlantedKey + "\";", PlantedKey, "AKIA");
    "//" + ViolationHead + PlantedKey + "\";"
  }

  /**
   * The planted key is not a violation: the reply never says "secret" (it
   * has no `re` at all), and the only pattern needs that word.
   */
  lemma ViolationReplyIsNoViolation(fileName: string)
    ensures !GS.SecretMatch(ViolationReply())
    ensures GS.FileViolations(fileName, ViolationReply(), GS.SecretPatterns) == []
  {
    ViolationReplyHasNoRe();
    GS.NoReNoMatch(ViolationReply());
    GS.SingleFileViolations(fileName, ViolationReply());
  }

  lemma ViolationReplyHasNoRe()
    ensures forall k :: !GS.ReAt(ViolationReply(), k)
  {
    ViolationHeadHasNoRe();
    assert forall k :: !GS.ReAt(PlantedKey, k);
    assert forall k :: !GS.ReAt("\";", k);
    GS.NoReConcat("//" + ViolationHead, PlantedKey);
    GS.NoReConcat("//" + ViolationHead + PlantedKey, "\";");
  }

  lemma ViolationHeadHasNoRe()
    ensures forall k :: !GS.ReAt("//" + ViolationHead, k)
  {
    CommentHasNoRe();
    assert forall k :: !GS.ReAt("//", k);
    assert forall k :: !GS.ReAt(ViolationDeclaration, k);
    GS.NoReConcat("//", ViolationComment);
    GS.NoReConcat("//" + ViolationComment, ViolationDeclaration);
    assert "//" + ViolationComment + ViolationDeclaration == "//" + ViolationHead;
  }

  lemma CommentHasNoRe()
    ensures forall k :: !GS.ReAt(ViolationComment, k)
  {
  }

  const StatusHead := " High-quality business logic generated based on: "

  const StatusTail :=
    "\n@org.springframework.web.bind.annotation.GetMapping(\"/api/v1/status\")\npublic String getStatus() { return \"Service is Operational\"; }"

  /** The status-endpoint snippet that echoes the user's prompt. */
  function StatusReply(userPrompt: string): (reply: string)
    ensures Contains(reply, userPrompt)
    ensures StartsWith(reply, "//")
  {
    HeadMiddleTail("//" + StatusHead, "//", userPrompt, StatusTail);
    "//" + StatusHead + userPrompt + StatusTail
  }

  /** `generate(systemPrompt, userPrompt)`. */
  function Generate(systemPrompt: string, userPrompt: string): (reply: string)
    ensures Contains(systemPrompt, IntentRequestMarker) ==> StartsWith(reply, "{")
    ensures !Contains(systemPrompt, IntentRequestMarker) ==> StartsWith(reply, "//")
    ensures !StartsWith(reply, "ERROR")
  {
    var lower := ToLowerAscii(userPrompt);
    var reply :=
      if Contains(systemPrompt, IntentRequestMarker) then
        if Contains(lower, "customer") || Contains(lower, "auth") then
          var hasOAuth2 := Contains(lower, "oauth2");
          var hasJpa := Contains(lower, "jpa") || Contains(lower, "database");
          CustomerIntentJson(if hasOAuth2 then "OAUTH2" else "JWT", if hasJpa then "JPA" else "NONE")
        else
          GenericIntentJson()
      else if Contains(lower, "trigger violation") || Contains(lower, "akia") then
        ViolationReply()
      else
        StatusReply(userPrompt);
    NotAnErrorReply(reply);
    reply
  }

  /**
   * The intent request picks its reply from the prompt's keywords: a customer
   * or auth prompt yields the customer-service intent, with OAUTH2 exactly
   * when "oauth2" is mentioned and JPA exactly when "jpa" or "database" is.
   */
  lemma IntentReplyFollowsKeywords(systemPrompt: string, userPrompt: string)
    requires Contains(systemPrompt, IntentRequestMarker)
    ensures
      var lower := ToLowerAscii(userPrompt);
      var reply := Generate(systemPrompt, userPrompt);
      if Contains(lower, "customer") || Contains(lower, "auth") then
        Contains(reply, AuthLine(if Contains(lower, "oauth2") then "OAUTH2" else "JWT"))
        && Contains(reply, PersistenceLine(if Contains(lower, "jpa") || Contains(lower, "database") then "JPA" else "NONE"))
      else reply == GenericIntentJson()
  {
  }

  /** Outside intent extraction, a prompt that asks for a violation gets the planted key, any other prompt is echoed. */
  lemma CodeReplyFollowsKeywords(systemPrompt: string, userPrompt: string)
    requires !Contains(systemPrompt, IntentRequestMarker)
    ensures
      var lower := ToLowerAscii(userPrompt);
      var reply := Generate(systemPrompt, userPrompt);
      if Contains(lower, "trigger violation") || Contains(lower, "akia") then
        reply == ViolationReply() && Contains(reply, "AKIA")
      else Contains(reply, userPrompt)
  {
  }
}
