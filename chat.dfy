/** `llm` (routing a prompt to the locally served or the hosted chat
    backend) and `evaluate_relevance` (the LLM-as-judge call). */
module Chat {
  import opened Wrappers
  import opened Text

  /** The `usage` block of a chat-completion response. */
  datatype Usage = Usage(promptTokens: nat, completionTokens: nat, totalTokens: nat)

  /** The `tokens` dictionary built by `llm`. It has the same three counts
      as `Usage` but is a separate value: `llm` copies them one by one out
      of the client's response object into a new dictionary, and keeping
      the two apart lets `Complete` state that copy count by count. */
  datatype Tokens = Tokens(promptTokens: nat, completionTokens: nat, totalTokens: nat)

  datatype Message = Message(role: string, content: string)

  datatype ChatRequest = ChatRequest(model: string, messages: seq<Message>)

  /** `response.choices[0].message.content` and `response.usage`. */
  datatype ChatResponse = ChatResponse(content: string, usage: Usage)

  /** `client.chat.completions.create`; a raised exception is a `Failure`. */
  type ChatClient = ChatRequest -> Result<ChatResponse, string>

  /** The wall-clock time a call takes, as `time.time()` around it measures it. */
  type Clock = ChatRequest -> real

  /** The two module-level clients and the clock. */
  datatype Backends = Backends(ollama: ChatClient, openai: ChatClient, elapsed: Clock)

  /** What `llm` and `evaluate_relevance` can raise: the `ValueError` for an
      unknown model prefix, an exception from a chat client, and the
      `AttributeError` of `.get` on parsed JSON that is not an object. */
  datatype Error =
    | UnknownModelChoice(choice: string)
    | BackendError(message: string)
    | JudgeOutputNotObject

  /** The triple `(answer, tokens, response_time)`. */
  datatype LlmReply = LlmReply(answer: string, tokens: Tokens, responseTime: real)

  const OllamaPrefix: string := "ollama/"
  const OpenAIPrefix: string := "openai/"

  /** `model_choice.split('/')[-1]`. */
  function ModelName(modelChoice: string): string {
    LastSegment(modelChoice, '/')
  }

  /** The request `llm` sends: one user message holding the prompt. */
  function UserRequest(model: string, prompt: string): ChatRequest {
    ChatRequest(model, [Message("user", prompt)])
  }

  /** One branch of `llm`: call the client, copy the reply and its usage. */
  function Complete(client: ChatClient, clock: Clock, model: string, prompt: string): (r: Result<LlmReply, Error>)
    ensures var call := client(UserRequest(model, prompt));
      && (r.Success? <==> call.Success?)
      && (call.Failure? ==> r == Failure(BackendError(call.error)))
      && (call.Success? ==>
            && r.value.answer == call.value.content
            && r.value.tokens.promptTokens == call.value.usage.promptTokens
            && r.value.tokens.completionTokens == call.value.usage.completionTokens
            && r.value.tokens.totalTokens == call.value.usage.totalTokens
            && r.value.responseTime == clock(UserRequest(model, prompt)))
  {
    var request := UserRequest(model, prompt);
    match client(request)
    case Failure(e) => Failure(BackendError(e))
    case Success(response) =>
      var tokens := Tokens(response.usage.promptTokens, response.usage.completionTokens,
                           response.usage.totalTokens);
      Success(LlmReply(response.content, tokens, clock(request)))
  }

  /** `llm(prompt, model_choice)`. */
  function Llm(prompt: string, modelChoice: string, backends: Backends): (r: Result<LlmReply, Error>)
    ensures r == Failure(UnknownModelChoice(modelChoice))
        <==> !StartsWith(modelChoice, OllamaPrefix) && !StartsWith(modelChoice, OpenAIPrefix)
    ensures StartsWith(modelChoice, OllamaPrefix) ==>
      r == Complete(backends.ollama, backends.elapsed, ModelName(modelChoice), prompt)
    ensures StartsWith(modelChoice, OpenAIPrefix) ==>
      r == Complete(backends.openai, backends.elapsed, ModelName(modelChoice), prompt)
  {
    if StartsWith(modelChoice, OllamaPrefix) then
      Complete(backends.ollama, backends.elapsed, ModelName(modelChoice), prompt)
    else if StartsWith(modelChoice, OpenAIPrefix) then
      Complete(backends.openai, backends.elapsed, ModelName(modelChoice), prompt)
    else
      Failure(UnknownModelChoice(modelChoice))
  }

  /** The two prefixes exclude each other. */
  lemma PrefixesDisjoint(modelChoice: string)
    ensures !(StartsWith(modelChoice, OllamaPrefix) && StartsWith(modelChoice, OpenAIPrefix))
  {
  }

  /** The model name sent to a backend is the part of the model choice after
      its last `/`: it holds no `/`, and the choice is some prefix, a `/`
      and that name. */
  lemma ModelNameAfterLastSlash(modelChoice: string)
    requires StartsWith(modelChoice, OllamaPrefix) || StartsWith(modelChoice, OpenAIPrefix)
    ensures '/' !in ModelName(modelChoice)
    ensures var n := ModelName(modelChoice);
      |n| < |modelChoice| && modelChoice == modelChoice[..|modelChoice| - |n| - 1] + "/" + n
  {
    var n := ModelName(modelChoice);
    if StartsWith(modelChoice, OllamaPrefix) {
      assert modelChoice[6] == modelChoice[..7][6];
    } else {
      assert modelChoice[6] == modelChoice[..7][6];
    }
    assert '/' in modelChoice;
    var k := |modelChoice| - |n| - 1;
    assert [modelChoice[k]] == "/";
    assert modelChoice[k + 1..] == n;
    AroundIndex(modelChoice, k);
  }

  /** `"<backend>/<name>"` with a slash-free name sends `name`. */
  lemma ModelNameOf(backend: string, name: string)
    requires '/' !in name
    ensures ModelName(backend + "/" + name) == name
  {
    LastSegmentOf(backend, '/', name);
  }

  /** A choice with neither prefix fails fast, whatever the backends. */
  lemma UnknownPrefixFails(prompt: string, modelChoice: string, backends: Backends)
    requires !StartsWith(modelChoice, OllamaPrefix) && !StartsWith(modelChoice, OpenAIPrefix)
    ensures Llm(prompt, modelChoice, backends) == Failure(UnknownModelChoice(modelChoice))
  {
  }

  /** `"ollama/<name>"` asks the local backend for model `name` and returns
      its reply, its usage counts unchanged. */
  lemma OllamaRouting(prompt: string, name: string, backends: Backends)
    requires '/' !in name
    ensures var call := backends.ollama(UserRequest(name, prompt));
      var r := Llm(prompt, "ollama/" + name, backends);
      && (r.Success? <==> call.Success?)
      && (call.Success? ==>
            && r.value.answer == call.value.content
            && r.value.tokens == Tokens(call.value.usage.promptTokens, call.value.usage.completionTokens,
                                        call.value.usage.totalTokens))
  {
    assert "ollama/" + name == "ollama" + "/" + name;
    ModelNameOf("ollama", name);
    assert StartsWith("ollama/" + name, OllamaPrefix) by {
      assert ("ollama/" + name)[..7] == "ollama/";
    }
  }

  /** `"openai/<name>"` asks the hosted backend for model `name` and returns
      its reply, its usage counts unchanged. */
  lemma OpenAIRouting(prompt: string, name: string, backends: Backends)
    requires '/' !in name
    ensures var call := backends.openai(UserRequest(name, prompt));
      var r := Llm(prompt, "openai/" + name, backends);
      && (r.Success? <==> call.Success?)
      && (call.Success? ==>
            && r.value.answer == call.value.content
            && r.value.tokens == Tokens(call.value.usage.promptTokens, call.value.usage.completionTokens,
                                        call.value.usage.totalTokens))
  {
    assert "openai/" + name == "openai" + "/" + name;
    ModelNameOf("openai", name);
    assert StartsWith("openai/" + name, OpenAIPrefix) by {
      assert ("openai/" + name)[..7] == "openai/";
    }
    PrefixesDisjoint("openai/" + name);
  }

  // ---------------------------------------------------------------------
  // The relevance judge.

  /** A decoded JSON document: an object (its string members) or any other
      JSON value. */
  datatype Json = JObject(members: map<string, string>) | JNonObject

  /** `json.loads`; `None` is a `JSONDecodeError`. */
  type JsonParser = string -> Option<Json>

  datatype Judgement = Judgement(relevance: string, explanation: string, tokens: Tokens)

  const JudgeModel: string := "openai/gpt-4o-mini"

  const JudgeLead: string :=
    "You are an expert evaluator for a Retrieval-Augmented Generation (RAG) system.\n"
    + "Your task is to analyze the relevance of the generated answer to the given question.\n"
    + "Based on the relevance of the generated answer, you will classify it\n"
    + "as \"NON_RELEVANT\", \"PARTLY_RELEVANT\", or \"RELEVANT\".\n"
    + "\n"
    + "Here is the data for evaluation:\n"
    + "\n"
    + "Question: "

  const JudgeMiddle: string := "\nGenerated Answer: "

  const JudgeTail: string :=
    "\n"
    + "\n"
    + "Please analyze the content and context of the generated answer in relation to the question\n"
    + "and provide your evaluation in parsable JSON without using code blocks:\n"
    + "\n"
    + "{\n"
    + "  \"Relevance\": \"NON_RELEVANT\" | \"PARTLY_RELEVANT\" | \"RELEVANT\",\n"
    + "  \"Explanation\": \"[Provide a brief explanation for your evaluation]\"\n"
    + "}"

  /** The judge template with its placeholders filled (`{{`/`}}` already
      rendered as braces). */
  function JudgePrompt(question: string, answer: string): string {
    JudgeLead + question + JudgeMiddle + answer + JudgeTail
  }

  /** `dict.get(key, default)`. */
  function Get(members: map<string, string>, key: string, default: string): (v: string)
    ensures key in members ==> v == members[key]
    ensures key !in members ==> v == default
  {
    if key in members then members[key] else default
  }

  /** `evaluate_relevance(question, answer)`. */
  function EvaluateRelevance(question: string, answer: string, backends: Backends, parse: JsonParser)
    : (r: Result<Judgement, Error>)
    ensures var call := Llm(JudgePrompt(question, answer), JudgeModel, backends);
      && (call.Failure? ==> r == Failure(call.error))
      && (call.Success? ==>
            match parse(call.value.answer)
            case None =>
              r == Success(Judgement("UNKNOWN", "Failed to parse evaluation", call.value.tokens))
            case Some(JNonObject) => r == Failure(JudgeOutputNotObject)
            case Some(JObject(m)) =>
              && r.Success?
              && r.value.tokens == call.value.tokens
              && r.value.relevance == (if "Relevance" in m then m["Relevance"] else "UNKNOWN")
              && r.value.explanation == (if "Explanation" in m then m["Explanation"] else "No explanation provided"))
  {
    var prompt := JudgePrompt(question, answer);
    match Llm(prompt, JudgeModel, backends)
    case Failure(e) => Failure(e)
    case Success(reply) =>
      match parse(reply.answer)
      case None => Success(Judgement("UNKNOWN", "Failed to parse evaluation", reply.tokens))
      case Some(JNonObject) => Failure(JudgeOutputNotObject)
      case Some(JObject(m)) =>
        Success(Judgement(Get(m, "Relevance", "UNKNOWN"), Get(m, "Explanation", "No explanation provided"),
                          reply.tokens))
  }

  /** The judge's model choice reaches the hosted backend as `gpt-4o-mini`. */
  lemma JudgeModelRouting(prompt: string, backends: Backends)
    ensures Llm(prompt, JudgeModel, backends)
         == Complete(backends.openai, backends.elapsed, "gpt-4o-mini", prompt)
  {
    assert JudgeModel == "openai" + "/" + "gpt-4o-mini";
    ModelNameOf("openai", "gpt-4o-mini");
    assert StartsWith(JudgeModel, OpenAIPrefix);
    PrefixesDisjoint(JudgeModel);
  }

  /** The judge always asks the hosted backend for `gpt-4o-mini`; the local
      backend plays no part, whichever model answered. */
  lemma JudgeIgnoresLocalBackend(question: string, answer: string, backends: Backends, local: ChatClient,
                                 parse: JsonParser)
    ensures EvaluateRelevance(question, answer, backends, parse)
         == EvaluateRelevance(question, answer, backends.(ollama := local), parse)
  {
    var prompt := JudgePrompt(question, answer);
    JudgeModelRouting(prompt, backends);
    JudgeModelRouting(prompt, backends.(ollama := local));
  }

  /** Judge output that is not JSON degrades to `UNKNOWN` and keeps the
      judge call's token counts. */
  lemma JudgeParseFallback(question: string, answer: string, backends: Backends, parse: JsonParser)
    requires var call := Llm(JudgePrompt(question, answer), JudgeModel, backends);
      call.Success? && parse(call.value.answer).None?
    ensures var call := Llm(JudgePrompt(question, answer), JudgeModel, backends);
      var r := EvaluateRelevance(question, answer, backends, parse);
      && r.Success? && r.value.relevance == "UNKNOWN"
      && r.value.explanation == "Failed to parse evaluation"
      && r.value.tokens == call.value.tokens
  {
  }

  predicate IsVerdict(v: string) {
    v == "RELEVANT" || v == "PARTLY_RELEVANT" || v == "NON_RELEVANT" || v == "UNKNOWN"
  }

  /** The verdict is a relevance class whenever the judge's JSON either
      omits `Relevance` or gives one of the three classes. */
  lemma VerdictWhenJudgeConforms(question: string, answer: string, backends: Backends, parse: JsonParser)
    requires var call := Llm(JudgePrompt(question, answer), JudgeModel, backends);
      call.Success? ==> match parse(call.value.answer)
        case Some(JObject(m)) => "Relevance" in m ==> IsVerdict(m["Relevance"])
        case _ => true
    ensures var r := EvaluateRelevance(question, answer, backends, parse);
      r.Success? ==> IsVerdict(r.value.relevance)
  {
  }

  /** The verdict is not validated: whatever string the judge's object
      holds under `Relevance` is the verdict, a relevance class or not. */
  lemma VerdictPassedThrough(question: string, answer: string, backends: Backends, parse: JsonParser,
                             verdict: string)
    requires var call := Llm(JudgePrompt(question, answer), JudgeModel, backends);
      call.Success? && parse(call.value.answer) == Some(JObject(map["Relevance" := verdict]))
    ensures var r := EvaluateRelevance(question, answer, backends, parse);
      && r.Success? && r.value.relevance == verdict
      && r.value.explanation == "No explanation provided"
  {
    var call := Llm(JudgePrompt(question, answer), JudgeModel, backends);
    assert "Explanation" !in map["Relevance" := verdict];
  }
}
