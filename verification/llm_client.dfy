/**
 * The LlmClient interface, `generate(systemPrompt, userPrompt)`. The two
 * services only ever send one of two fixed system prompts (the intent
 * extraction prompt of PromptParsingService and the business-logic prompt
 * of PromptOrchestrationService), so a client is modelled as a function of
 * which prompt is sent and the user's prompt; `Text` gives each prompt's
 * wording. The mock client is the one adapter whose code is modelled.
 */
module LlmClient {
  import opened JavaString
  import MockLlmClient

  /** Which of the two system prompts a call carries. */
  datatype SystemPrompt = IntentExtraction | BusinessLogic

  /** A language-model client: the reply to each (system prompt, user prompt) pair. */
  type Client = (SystemPrompt, string) -> string

  /** The lines of the intent-extraction prompt before its CRITICAL line. */
  function ExtractionHead(): string {
    "You are a JSON extraction expert. Extract microservice configuration from the user prompt.\n"
    + "\n"
  }

  /** The CRITICAL line, which asks for a JSON object. */
  function ExtractionCritical(): string {
    "CRITICAL: Return ONLY a valid " + MockLlmClient.IntentRequestMarker + ". No explanations, no markdown, no code blocks.\n"
  }

  /** The lines of the intent-extraction prompt after its CRITICAL line. */
  function ExtractionTail(): string {
    "\n"
    + "Required JSON structure:\n"
    + "{\n"
    + "  \"serviceName\": \"string (e.g., kafka-service, order-service)\",\n"
    + "  \"packageName\": \"string (e.g., com.example.kafka)\",\n"
    + "  \"language\": \"JAVA\",\n"
    + "  \"framework\": \"SPRING_BOOT\",\n"
    + "  \"architecture\": \"LAYERED\",\n"
    + "  \"serviceType\": \"GENERAL\",\n"
    + "  \"auth\": \"NONE\",\n"
    + "  \"database\": \"H2\",\n"
    + "  \"persistence\": \"NONE\",\n"
    + "  \"port\": 8080\n"
    + "}\n"
    + "\n"
    + "Example 1 - Input: \"Create a Kafka microservice\"\n"
    + "Output: {\"serviceName\":\"kafka-service\",\"packageName\":\"com.example.kafka\",\"language\":\"JAVA\",\"framework\":\"SPRING_BOOT\",\"architecture\":\"LAYERED\",\"serviceType\":\"GENERAL\",\"auth\":\"NONE\",\"database\":\"H2\",\"persistence\":\"NONE\",\"port\":8080}\n"
    + "\n"
    + "Example 2 - Input: \"Order service with MySQL and JWT\"\n"
    + "Output: {\"serviceName\":\"order-service\",\"packageName\":\"com.example.order\",\"language\":\"JAVA\",\"framework\":\"SPRING_BOOT\",\"architecture\":\"LAYERED\",\"serviceType\":\"GENERAL\",\"auth\":\"JWT\",\"database\":\"MYSQL\",\"persistence\":\"JPA\",\"port\":8080}\n"
    + "\n"
    + "Now extract from the user's prompt. Return ONLY the JSON object.\n"
  }

  /** The intent-extraction prompt `parse` sends. */
  function ExtractionPrompt(): string {
    ExtractionHead() + ExtractionCritical() + ExtractionTail()
  }

  /** The business-logic prompt `processJob` sends; it fixes the START FILE / END FILE reply format. */
  function BusinessLogicPrompt(): string {
    "You are a Senior Backend Engineer specializing in Spring Boot microservices.\n"
    + "\n"
    + "Generate a COMPLETE, production-ready Spring Boot microservice based on the user's requirements.\n"
    + "\n"
    + "OUTPUT FORMAT - Use this EXACT format for each file:\n"
    + "\n"
    + "/// START FILE: path/to/FileName.java\n"
    + "package com.example.service;\n"
    + "\n"
    + "import statements...\n"
    + "\n"
    + "@Annotation\n"
    + "public class FileName {\n"
    + "    // Complete implementation\n"
    + "}\n"
    + "/// END FILE\n"
    + "\n"
    + "CRITICAL REQUIREMENTS:\n"
    + "1. Generate ALL necessary files for a working microservice:\n"
    + "   - pom.xml (with all required dependencies)\n"
    + "   - application.yml or application.properties (complete configuration)\n"
    + "   - Configuration classes (@Configuration)\n"
    + "   - DTOs/Models with validation annotations\n"
    + "   - Service layer (@Service)\n"
    + "   - Controller layer (@RestController)\n"
    + "   - Exception handlers (@ControllerAdvice)\n"
    + "   - Any other components mentioned in requirements\n"
    + "\n"
    + "2. Code Quality Standards:\n"
    + "   - Use Spring Boot 3.x best practices\n"
    + "   - Include proper error handling\n"
    + "   - Add validation using Jakarta Validation\n"
    + "   - Use SLF4J for logging\n"
    + "   - Follow RESTful conventions\n"
    + "   - Include Javadoc for complex logic\n"
    + "\n"
    + "3. Configuration:\n"
    + "   - Use application.yml format (NOT .properties)\n"
    + "   - Include all necessary Spring Boot properties\n"
    + "   - Add sensible defaults\n"
    + "   - Document configuration with comments\n"
    + "\n"
    + "4. Dependencies (pom.xml):\n"
    + "   - Spring Boot 3.x parent\n"
    + "   - Include ONLY dependencies mentioned in requirements\n"
    + "   - Use latest stable versions\n"
    + "   - Organize with proper groupId/artifactId\n"
    + "\n"
    + "5. Package Structure:\n"
    + "   - Use package name from intent: [packageName]\n"
    + "   - Follow standard structure: controller, service, model, config, exception\n"
    + "\n"
    + "DO NOT:\n"
    + "- Add explanatory text outside code blocks\n"
    + "- Generate test files (focus on main code)\n"
    + "- Include placeholder comments like \"// TODO\"\n"
    + "- Use deprecated APIs\n"
    + "\n"
    + "Generate COMPLETE, RUNNABLE code that can be immediately deployed.\n"
  }

  /** The wording sent as `systemPrompt`. */
  function Text(p: SystemPrompt): string {
    if p.IntentExtraction? then ExtractionPrompt() else BusinessLogicPrompt()
  }

  /** The extraction prompt asks for a JSON object, the phrase the mock client answers with intent JSON. */
  lemma ExtractionPromptAsksForJson()
    ensures Contains(ExtractionPrompt(), MockLlmClient.IntentRequestMarker)
  {
    var marker := MockLlmClient.IntentRequestMarker;
    ContainsMiddle("CRITICAL: Return ONLY a valid ", marker, ". No explanations, no markdown, no code blocks.\n");
    ContainsMiddle(ExtractionHead(), ExtractionCritical(), ExtractionTail());
    ContainsTransitive(ExtractionPrompt(), ExtractionCritical(), marker);
  }

  /** MockLlmClient as a client. */
  function Mock(p: SystemPrompt, userPrompt: string): string {
    MockLlmClient.Generate(Text(p), userPrompt)
  }

  /** The mock never reports a failure, whichever prompt it is sent. */
  lemma MockNeverFails(p: SystemPrompt, userPrompt: string)
    ensures !StartsWith(Mock(p, userPrompt), "ERROR")
  {
  }
}
