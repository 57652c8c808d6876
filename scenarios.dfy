/** End-to-end walks through the pipeline with stub services. */
module Scenarios {
  import opened Wrappers
  import opened Text
  import opened Retrieval
  import opened Prompt
  import opened Chat
  import opened Cost
  import opened Assistant

  const Question: string := "How do I claim disability benefit?"
  const Section: string := "general claim benefits"
  const Entry: Doc := Doc("Disability", Question, "Apply via gov portal.", Section, "1")
  const Reply: string := "Apply via the gov portal."

  /** The prompt for the one retrieved entry quotes both the question and
      the entry's answer. */
  lemma OneEntryPrompt()
    ensures Contains(BuildPrompt(Question, [Entry]), Question)
    ensures Contains(BuildPrompt(Question, [Entry]), Entry.answer)
  {
    PromptQuotesQuestion(Question, [Entry]);
    PromptQuotesEntry(Question, [Entry], 0);
  }

  /** The text search against a stub index holding one entry, a stub
      hosted model that always replies with the same sentence and 10/5/15
      tokens, and a judge reply that is not JSON. */
  function StubServices(): Services {
    Services(
      (index: string, body: SearchBody) => Success([Hit(Entry)]),
      (text: string) => [],
      Backends(
        (req: ChatRequest) => Failure("local backend unavailable"),
        (req: ChatRequest) => Success(ChatResponse(Reply, Usage(10, 5, 15))),
        (req: ChatRequest) => 1.5),
      (text: string) => None)
  }

  /** A hosted model that always replies `reply` with `usage`, and a
      judge reply that is not JSON: the record carries the reply, the usage
      counts for both calls, the `UNKNOWN` fallback and the price of the
      answer tokens. */
  lemma HostedAnswerWithUnparsedJudge(query: string, section: string, name: string, searchType: string,
                                      s: Services, reply: string, usage: Usage)
    requires '/' !in name
    requires forall req :: s.backends.openai(req) == Success(ChatResponse(reply, usage))
    requires s.parse(reply).None?
    ensures var r := GetAnswer(query, section, "openai/" + name, s, searchType);
      var tokens := Tokens(usage.promptTokens, usage.completionTokens, usage.totalTokens);
      && r.Success?
      && r.value.answer == reply
      && Tokens(r.value.promptTokens, r.value.completionTokens, r.value.totalTokens) == tokens
      && Tokens(r.value.evalPromptTokens, r.value.evalCompletionTokens, r.value.evalTotalTokens) == tokens
      && r.value.relevance == "UNKNOWN"
      && r.value.relevanceExplanation == "Failed to parse evaluation"
      && r.value.modelUsed == "openai/" + name
      && r.value.openaiCost == CalculateOpenAICost("openai/" + name, tokens)
  {
    var prompt := BuildPrompt(query, SearchResults(query, section, searchType, s));
    OpenAIRouting(prompt, name, s.backends);
    JudgeModelRouting(JudgePrompt(query, reply), s.backends);
  }

  /** The text search of the stub index finds its one entry. */
  lemma StubSearchFindsEntry()
    ensures SearchResults(Question, Section, "Text", StubServices()) == [Entry]
  {
    assert Sources(Success([Hit(Entry)])) == [Entry];
  }

  /** The stub walk-through: 10/5/15 tokens reported for the answer and
      for the judge, `UNKNOWN` verdict, and the `gpt-3.5-turbo` price of
      10 prompt and 5 completion tokens. */
  lemma StubScenario()
    ensures var r := GetAnswer(Question, Section, "openai/gpt-3.5-turbo", StubServices(), "Text");
      && r.Success?
      && r.value.answer == Reply
      && r.value.promptTokens == 10 && r.value.completionTokens == 5 && r.value.totalTokens == 15
      && r.value.evalPromptTokens == 10 && r.value.evalCompletionTokens == 5 && r.value.evalTotalTokens == 15
      && r.value.relevance == "UNKNOWN"
      && r.value.modelUsed == "openai/gpt-3.5-turbo"
      && r.value.openaiCost == 0.000025
  {
    var s := StubServices();
    assert forall req :: s.backends.openai(req) == Success(ChatResponse(Reply, Usage(10, 5, 15)));
    assert s.parse(Reply).None?;
    assert "openai/gpt-3.5-turbo" == "openai/" + "gpt-3.5-turbo";
    assert CalculateOpenAICost("openai/gpt-3.5-turbo", Tokens(10, 5, 15)) == 0.000025;
    HostedAnswerWithUnparsedJudge(Question, Section, "gpt-3.5-turbo", "Text", StubServices(), Reply, Usage(10, 5, 15));
  }

  /** A search backend that raises leaves every strategy with no entries,
      and the answer is still asked for, on the bare instruction prompt. */
  lemma SearchOutageScenario(query: string, section: string, searchType: string, s: Services)
    requires forall index, body :: s.search(index, body).Failure?
    ensures SearchResults(query, section, searchType, s) == []
    ensures AnswerCall(query, section, "openai/gpt-4o", s, searchType)
         == Llm(Preamble + query + "\n\nCONTEXT:", "openai/gpt-4o", s.backends)
  {
    PromptWithoutResults(query);
  }
}
