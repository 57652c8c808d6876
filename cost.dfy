/** `calculate_openai_cost`: the estimated price of the answer call. Prices
    are exact decimals here; the source's IEEE floats are not modelled. */
module Cost {
  import opened Text
  import opened Chat

  /** US dollars per 1000 prompt and per 1000 completion tokens. */
  datatype Rates = Rates(prompt: real, completion: real)

  /** The price list the `if`/`elif` chain encodes. */
  const PriceTable: map<string, Rates> := map[
    "openai/gpt-3.5-turbo" := Rates(0.0015, 0.002),
    "openai/gpt-4o" := Rates(0.03, 0.06),
    "openai/gpt-4o-mini" := Rates(0.03, 0.06)
  ]

  function CalculateOpenAICost(modelChoice: string, tokens: Tokens): (cost: real)
    ensures cost >= 0.0
    ensures modelChoice !in PriceTable ==> cost == 0.0
  {
    if modelChoice == "openai/gpt-3.5-turbo" then
      (tokens.promptTokens as real * 0.0015 + tokens.completionTokens as real * 0.002) / 1000.0
    else if modelChoice in ["openai/gpt-4o", "openai/gpt-4o-mini"] then
      (tokens.promptTokens as real * 0.03 + tokens.completionTokens as real * 0.06) / 1000.0
    else
      0.0
  }

  /** The cost is the table's per-1000 rates applied to the prompt and
      completion counts, and zero for a model outside the table. */
  lemma CostFollowsTable(modelChoice: string, tokens: Tokens)
    ensures modelChoice in PriceTable ==>
      CalculateOpenAICost(modelChoice, tokens)
        == (tokens.promptTokens as real * PriceTable[modelChoice].prompt
            + tokens.completionTokens as real * PriceTable[modelChoice].completion) / 1000.0
    ensures modelChoice !in PriceTable ==> CalculateOpenAICost(modelChoice, tokens) == 0.0
  {
  }

  /** The cost adds up over prompt and completion tokens and ignores the
      reported total. */
  lemma CostIsLinear(modelChoice: string, a: Tokens, b: Tokens, total: nat)
    ensures CalculateOpenAICost(modelChoice,
              Tokens(a.promptTokens + b.promptTokens, a.completionTokens + b.completionTokens, total))
         == CalculateOpenAICost(modelChoice, a) + CalculateOpenAICost(modelChoice, b)
  {
  }

  /** `gpt-4o` and `gpt-4o-mini` are billed alike. */
  lemma Gpt4oTiersShareRates(tokens: Tokens)
    ensures CalculateOpenAICost("openai/gpt-4o", tokens) == CalculateOpenAICost("openai/gpt-4o-mini", tokens)
  {
  }

  /** Locally served models are free. */
  lemma LocalModelsAreFree(modelChoice: string, tokens: Tokens)
    requires StartsWith(modelChoice, OllamaPrefix)
    ensures CalculateOpenAICost(modelChoice, tokens) == 0.0
  {
    assert modelChoice[2] == OllamaPrefix[2] == 'l';
  }
}
