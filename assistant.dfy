/** `get_answer`: retrieval, prompt, answer call, relevance judge and cost,
    assembled into one response record. */
module Assistant {
  import opened Wrappers
  import opened Text
  import opened Retrieval
  import opened Prompt
  import opened Chat
  import opened Cost

  /** The long-lived handles of the module: the search client, the
      embedding model, the two chat clients with the clock, and `json.loads`. */
  datatype Services = Services(search: SearchClient, encode: Embedder, backends: Backends, parse: JsonParser)

  /** The dictionary `get_answer` returns. */
  datatype AnswerRecord = AnswerRecord(
    answer: string,
    responseTime: real,
    relevance: string,
    relevanceExplanation: string,
    modelUsed: string,
    promptTokens: nat,
    completionTokens: nat,
    totalTokens: nat,
    evalPromptTokens: nat,
    evalCompletionTokens: nat,
    evalTotalTokens: nat,
    openaiCost: real)

  const DefaultSearchType: string := "Hybrid"

  /** The retrieval step of `get_answer`: `Vector` runs the kNN search on
      the embedding field, `Hybrid` the hybrid search, anything else the
      text search, each against the default index. */
  function SearchResults(query: string, section: string, searchType: string, s: Services): (r: seq<Doc>)
    ensures searchType == "Vector" ==>
      r == Sources(s.search(DefaultIndex, KnnQuery("question_answer_vector", s.encode(query), section)))
    ensures searchType == "Hybrid" ==>
      r == Sources(s.search(DefaultIndex, HybridQuery(query, s.encode(query), section)))
    ensures searchType != "Vector" && searchType != "Hybrid" ==>
      r == Sources(s.search(DefaultIndex, TextQuery(query, section)))
  {
    if searchType == "Vector" then
      var vector := s.encode(query);
      ElasticSearchKnn(VectorField, vector, section, s.search)
    else if searchType == "Hybrid" then
      QuestionAnswerHybrid(QuestionQuery(query, section), s.search, s.encode)
    else
      ElasticSearchText(query, section, s.search)
  }

  /** The answer call `get_answer` makes. */
  function AnswerCall(query: string, section: string, modelChoice: string, s: Services, searchType: string)
    : Result<LlmReply, Error>
  {
    Llm(BuildPrompt(query, SearchResults(query, section, searchType, s)), modelChoice, s.backends)
  }

  /** A record whose cost is the price of its own answer tokens. */
  predicate CostMatchesAnswerTokens(rec: AnswerRecord) {
    rec.openaiCost
      == CalculateOpenAICost(rec.modelUsed, Tokens(rec.promptTokens, rec.completionTokens, rec.totalTokens))
  }

  function GetAnswer(query: string, section: string, modelChoice: string, s: Services,
                     searchType: string := DefaultSearchType): (r: Result<AnswerRecord, Error>)
    ensures var call := AnswerCall(query, section, modelChoice, s, searchType);
      && (call.Failure? ==> r == Failure(call.error))
      && (call.Success? ==>
            var judge := EvaluateRelevance(query, call.value.answer, s.backends, s.parse);
            && (judge.Failure? ==> r == Failure(judge.error))
            && (judge.Success? ==>
                  && r.Success?
                  && r.value.answer == call.value.answer
                  && r.value.responseTime == call.value.responseTime
                  && r.value.modelUsed == modelChoice
                  && Tokens(r.value.promptTokens, r.value.completionTokens, r.value.totalTokens)
                     == call.value.tokens
                  && Tokens(r.value.evalPromptTokens, r.value.evalCompletionTokens, r.value.evalTotalTokens)
                     == judge.value.tokens
                  && r.value.relevance == judge.value.relevance
                  && r.value.relevanceExplanation == judge.value.explanation))
    ensures r.Success? ==> r.value.modelUsed == modelChoice && CostMatchesAnswerTokens(r.value) && r.value.openaiCost >= 0.0
  {
    var searchResults := SearchResults(query, section, searchType, s);
    var prompt := BuildPrompt(query, searchResults);
    match Llm(prompt, modelChoice, s.backends)
    case Failure(e) => Failure(e)
    case Success(reply) =>
      match EvaluateRelevance(query, reply.answer, s.backends, s.parse)
      case Failure(e) => Failure(e)
      case Success(judgement) =>
        var openaiCost := CalculateOpenAICost(modelChoice, reply.tokens);
        Success(AnswerRecord(
          reply.answer, reply.responseTime, judgement.relevance, judgement.explanation, modelChoice,
          reply.tokens.promptTokens, reply.tokens.completionTokens, reply.tokens.totalTokens,
          judgement.tokens.promptTokens, judgement.tokens.completionTokens, judgement.tokens.totalTokens,
          openaiCost))
  }

  /** An unknown model prefix fails before the judge is asked. */
  lemma UnknownModelFailsFast(query: string, section: string, modelChoice: string, s: Services, searchType: string)
    requires !StartsWith(modelChoice, OllamaPrefix) && !StartsWith(modelChoice, OpenAIPrefix)
    ensures GetAnswer(query, section, modelChoice, s, searchType) == Failure(UnknownModelChoice(modelChoice))
  {
  }

  /** A question answered by a locally served model costs nothing. */
  lemma LocalAnswerIsFree(query: string, section: string, modelChoice: string, s: Services, searchType: string)
    requires StartsWith(modelChoice, OllamaPrefix)
    ensures var r := GetAnswer(query, section, modelChoice, s, searchType);
      r.Success? ==> r.value.openaiCost == 0.0
  {
    var r := GetAnswer(query, section, modelChoice, s, searchType);
    if r.Success? {
      LocalModelsAreFree(modelChoice, Tokens(r.value.promptTokens, r.value.completionTokens, r.value.totalTokens));
    }
  }

  /** The judge always runs: a question answered successfully still fails
      when the judge call fails, and a record always carries the judge's
      token counts. */
  lemma JudgeAlwaysRuns(query: string, section: string, modelChoice: string, s: Services, searchType: string)
    requires AnswerCall(query, section, modelChoice, s, searchType).Success?
    ensures var call := AnswerCall(query, section, modelChoice, s, searchType);
      var judge := EvaluateRelevance(query, call.value.answer, s.backends, s.parse);
      GetAnswer(query, section, modelChoice, s, searchType).Success? <==> judge.Success?
  {
  }
}
