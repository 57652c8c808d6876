# Benefits-claims assistant: a Dafny model of its answering pipeline

This project models the pipeline behind the assistant's answers to
questions about UK benefit and NHS claims. The pipeline has six steps:

1. It retrieves FAQ entries from an Elasticsearch index. The search is
   lexical, k-nearest-neighbour or hybrid, and filtered to one section.
2. It renders a grounding prompt from the question and those entries.
3. It asks a local (Ollama) or hosted (OpenAI) chat model for an answer.
   The `ollama/` or `openai/` prefix of the model choice selects the backend.
4. It asks the hosted `gpt-4o-mini` to judge the answer's relevance and
   parses the JSON verdict. The verdict falls back to `UNKNOWN`.
5. It prices the answer call from a table keyed by model choice.
6. It assembles everything into one answer record.

Every step is a pure function over datatypes. The source holds no state of
its own: it only calls foreign clients. The external services are function
parameters grouped in `Assistant.Services`:

- the search client: an index and a request body give the hits or an exception;
- the sentence encoder;
- the two chat clients;
- the clock: the measured duration of a chat request;
- `json.loads`.

Modules:

- `Wrappers`: `Option` and `Result`.
- `Text`: Python's `str.strip` with the full `str.isspace` set,
  `str.join`, `str.split` and `[-1]`, and their lemmas.
- `Retrieval`: the three query bodies and the three search functions.
  It also holds `question_answer_hybrid` and what an honouring search
  engine returns.
- `Prompt`: `build_prompt`. Its prompt is characterised exactly, with
  and without entries.
- `Chat`: `llm` (routing, model name, usage) and `evaluate_relevance`.
- `Cost`: `calculate_openai_cost`.
- `Assistant`: `get_answer`.
- `Scenarios`: end-to-end walks with stub services. One of them is the
  walk-through in which a stub index holds one disability-benefit entry and
  a stub model reports 10/5/15 tokens.

In two places the code promises less than its own requests suggest.
The model follows what the code does:

- The judge prompt asks for one of three classes, `NON_RELEVANT`,
  `PARTLY_RELEVANT` or `RELEVANT` (assistant.py lines 186 and 197). Line 207
  passes through whatever string the parsed JSON holds under `Relevance`.
  `Chat.VerdictPassedThrough` states this, and
  `Chat.VerdictWhenJudgeConforms` states when the verdict is one of the
  three classes or the `UNKNOWN` default.
- The queries ask for `size` 5 and a `section` term filter (lines 26, 36,
  54-56, 79 and 101-105). The code never checks the hits the engine
  returns. The model states the five-entry, one-section bound under the
  hypothesis `Retrieval.Honours` that the engine keeps to the request's
  `size` and term filters.

## Model

| member | source | states |
|---|---|---|
| Text.Strip | end2end-benefits/benefits-claims/stream_app/app/assistant.py:145 | `str.strip`: characterised by the contracts of `Text.RStrip` and `Text.LStrip` and by `Text.StripKeepsHead` |
| Text.Join | end2end-benefits/benefits-claims/stream_app/app/assistant.py:139-144 | `str.join`: characterised by `Text.JoinPartAt` (parts at their offsets, in order) and `Text.RStripJoin` |
| Text.StartsWith | end2end-benefits/benefits-claims/stream_app/app/assistant.py:150 | `str.startswith`: the prefix is the input's first characters; `Chat.PrefixesDisjoint` and `Cost.LocalModelsAreFree` build on it |
| Text.RStrip | end2end-benefits/benefits-claims/stream_app/app/assistant.py:145 | the result is a prefix of the input, the removed tail is all whitespace, and the result is empty or ends in a non-space character |
| Text.LStrip | end2end-benefits/benefits-claims/stream_app/app/assistant.py:145 | the result is a suffix of the input, the removed head is all whitespace, and the result is empty or starts with a non-space character |
| Text.Split | end2end-benefits/benefits-claims/stream_app/app/assistant.py:152 | the pieces joined by the separator give back the input, and no piece contains the separator |
| Text.LastSegment | end2end-benefits/benefits-claims/stream_app/app/assistant.py:152 | `[-1]` of the split: a separator-free suffix of the input, preceded by the separator whenever the input holds one, and the whole input otherwise |
| Text.JoinPartAt | end2end-benefits/benefits-claims/stream_app/app/assistant.py:139-144 | part `i` of a `join` sits at its offset, in order, and the last part ends the joined string |
| Text.RStripJoin | end2end-benefits/benefits-claims/stream_app/app/assistant.py:145 | stripping a join's right end touches only its last part, provided that part is not all whitespace |
| Retrieval.TextQuery | end2end-benefits/benefits-claims/stream_app/app/assistant.py:25-39 | the text body: characterised by `Retrieval.QueryShapes` (size 5, the `section` term on the `bool` filter, one `best_fields` multi-match over `question^3`, `answer`, `category`) |
| Retrieval.KnnQuery | end2end-benefits/benefits-claims/stream_app/app/assistant.py:50-68 | the kNN body: characterised by `Retrieval.QueryShapes` (size 5, one kNN clause with `k` 5 over 10000 candidates carrying the `section` term, the five `_source` fields) |
| Retrieval.HybridQuery | end2end-benefits/benefits-claims/stream_app/app/assistant.py:78-109 | the hybrid body: characterised by `Retrieval.QueryShapes` (size 5, a kNN clause on `question_answer_vector` and the multi-match, the `section` term on the `bool` filter, the five `_source` fields) |
| Retrieval.Sources | end2end-benefits/benefits-claims/stream_app/app/assistant.py:41-46 | an exception gives `[]`; otherwise one entry per hit, each hit's `_source`, in hit order |
| Retrieval.ElasticSearchText | end2end-benefits/benefits-claims/stream_app/app/assistant.py:24-46 | a failed search gives `[]`; otherwise the `_source` of every hit of the text query, in order |
| Retrieval.ElasticSearchKnn | end2end-benefits/benefits-claims/stream_app/app/assistant.py:49-75 | a failed search gives `[]`; otherwise the `_source` of every hit of the kNN query, in order |
| Retrieval.ElasticSearchHybrid | end2end-benefits/benefits-claims/stream_app/app/assistant.py:77-116 | a failed search gives `[]`; otherwise the `_source` of every hit of the hybrid query, in order |
| Retrieval.QuestionAnswerHybrid | end2end-benefits/benefits-claims/stream_app/app/assistant.py:120-124 | the hybrid search of the default index `benefit-claims`, using the question, its embedding and the section |
| Retrieval.QueryShapes | end2end-benefits/benefits-claims/stream_app/app/assistant.py:24-109 | all three bodies ask for 5 results and filter on the `section` term: on the `bool` query for text and hybrid, inside the kNN clause for kNN. kNN clauses use `k` 5 over 10000 candidates. The lexical clause boosts `question` 3 times over `answer` and `category`. kNN and hybrid request the five listed fields through `_source` |
| Retrieval.HonouredSearch | end2end-benefits/benefits-claims/stream_app/app/assistant.py:41-43 | with an engine that keeps to the request, every returned entry has the filtered section, and there are no more than `size` of them |
| Retrieval.RetrievalBounded | end2end-benefits/benefits-claims/stream_app/app/assistant.py:24-124 | with such an engine, every retrieval strategy returns at most 5 entries, all of the requested section |
| Prompt.BuildPrompt | end2end-benefits/benefits-claims/stream_app/app/assistant.py:127-145 | `build_prompt`: characterised exactly by `Prompt.PromptWithoutResults` and `Prompt.PromptWithResults`; `Prompt.PromptHasQuestion`, `Prompt.PromptQuotesQuestion` and `Prompt.PromptQuotesEntry` state what it always contains |
| Prompt.Block | end2end-benefits/benefits-claims/stream_app/app/assistant.py:141 | the rendering of one entry: characterised by `Prompt.BlockHeadFacts` and `Prompt.BlockHeadQuotes` (its head holds category, question and answer and ends in `section:`) |
| Prompt.Blocks | end2end-benefits/benefits-claims/stream_app/app/assistant.py:140-143 | the list comprehension: exactly one block per entry; `Prompt.ContextLayout` places them in entry order |
| Prompt.Context | end2end-benefits/benefits-claims/stream_app/app/assistant.py:139-144 | the blank-line join of the blocks: characterised by `Prompt.ContextLayout` (each block at its offset, in order) and `Prompt.StrippedContext` |
| Prompt.TrimmedBlocks | end2end-benefits/benefits-claims/stream_app/app/assistant.py:139-145 | one block per entry; every block but the last exactly as rendered |
| Prompt.BlockHeadQuotes | end2end-benefits/benefits-claims/stream_app/app/assistant.py:141 | an entry's rendered head contains its category, its question and its answer |
| Prompt.StrippedBlock | end2end-benefits/benefits-claims/stream_app/app/assistant.py:141-145 | stripping a block removes only the trailing whitespace of its section and the blank line after it |
| Prompt.ContextLayout | end2end-benefits/benefits-claims/stream_app/app/assistant.py:139-144 | the context holds block `i` at its offset, in entry order, with a blank line between neighbours, and the last block ends the context |
| Prompt.StrippedContext | end2end-benefits/benefits-claims/stream_app/app/assistant.py:139-145 | stripping the context's right end changes only the last block |
| Prompt.PromptWithoutResults | end2end-benefits/benefits-claims/stream_app/app/assistant.py:127-145 | with no entries the context is empty, and the prompt is the instructions, the question and a bare `CONTEXT:` |
| Prompt.PromptWithResults | end2end-benefits/benefits-claims/stream_app/app/assistant.py:127-145 | with entries the prompt is exactly the instructions, the question, the `CONTEXT:` heading and the blocks joined by blank lines, the last one trimmed |
| Prompt.PromptHasQuestion | end2end-benefits/benefits-claims/stream_app/app/assistant.py:128-145 | whatever the entries, the prompt opens with the instructions, the question and `CONTEXT:` |
| Prompt.PromptQuotesQuestion | end2end-benefits/benefits-claims/stream_app/app/assistant.py:133-145 | whatever the entries, the prompt contains the question |
| Prompt.PromptQuotesEntry | end2end-benefits/benefits-claims/stream_app/app/assistant.py:139-145 | the prompt contains every retrieved entry's category, question and answer |
| Chat.ModelName | end2end-benefits/benefits-claims/stream_app/app/assistant.py:152 | `split('/')[-1]`: characterised by `Chat.ModelNameAfterLastSlash` and `Chat.ModelNameOf` (the slash-free remainder after the last `/`) |
| Chat.Complete | end2end-benefits/benefits-claims/stream_app/app/assistant.py:150-171 | a backend call sends one user message holding the prompt; an error propagates; otherwise the reply text and all three usage counts are copied, and the time is the clock's duration |
| Chat.Llm | end2end-benefits/benefits-claims/stream_app/app/assistant.py:148-178 | the call fails as an unknown model choice exactly when neither prefix matches; `ollama/` goes to the local client and `openai/` to the hosted one, each with the model name |
| Chat.PrefixesDisjoint | end2end-benefits/benefits-claims/stream_app/app/assistant.py:150-161 | no model choice has both prefixes, so the branch order does not matter |
| Chat.ModelNameAfterLastSlash | end2end-benefits/benefits-claims/stream_app/app/assistant.py:152 | the name sent to a backend holds no `/`; the choice is some prefix, a `/` and that name |
| Chat.ModelNameOf | end2end-benefits/benefits-claims/stream_app/app/assistant.py:163 | a choice `backend/name` with a slash-free name sends exactly `name` |
| Chat.UnknownPrefixFails | end2end-benefits/benefits-claims/stream_app/app/assistant.py:172-173 | a choice with neither prefix raises the unknown-model error, whatever the backends |
| Chat.OllamaRouting | end2end-benefits/benefits-claims/stream_app/app/assistant.py:150-160 | for a slash-free `name`, `ollama/name` asks the local client for `name` and succeeds exactly when it does, with its reply and its usage |
| Chat.OpenAIRouting | end2end-benefits/benefits-claims/stream_app/app/assistant.py:161-171 | for a slash-free `name`, `openai/name` asks the hosted client for `name` and succeeds exactly when it does, with its reply and its usage |
| Chat.JudgePrompt | end2end-benefits/benefits-claims/stream_app/app/assistant.py:182-202 | the filled judge template: the fixed instructions, the question, the answer, and the JSON format request with single braces; `Chat.JudgeModelRouting` states where it is sent |
| Chat.Get | end2end-benefits/benefits-claims/stream_app/app/assistant.py:207 | `dict.get`: the member when the key is present, otherwise the default |
| Chat.EvaluateRelevance | end2end-benefits/benefits-claims/stream_app/app/assistant.py:181-210 | a failed judge call propagates. Output that is not JSON gives `UNKNOWN` / `Failed to parse evaluation`. A JSON non-object fails. An object gives its `Relevance` and `Explanation`, with defaults `UNKNOWN` and `No explanation provided`. The judge call's tokens are always kept |
| Chat.JudgeModelRouting | end2end-benefits/benefits-claims/stream_app/app/assistant.py:203 | the judge's choice `openai/gpt-4o-mini` reaches the hosted client as model `gpt-4o-mini` |
| Chat.JudgeIgnoresLocalBackend | end2end-benefits/benefits-claims/stream_app/app/assistant.py:203 | the judgement does not depend on the local client, whichever model answered |
| Chat.JudgeParseFallback | end2end-benefits/benefits-claims/stream_app/app/assistant.py:208-210 | judge output that `json.loads` rejects yields `UNKNOWN` and the judge call's token counts |
| Chat.VerdictWhenJudgeConforms | end2end-benefits/benefits-claims/stream_app/app/assistant.py:205-207 | the verdict is one of the four classes when the judge's object omits `Relevance` or gives one of the three classes |
| Chat.VerdictPassedThrough | end2end-benefits/benefits-claims/stream_app/app/assistant.py:205-207 | any string under `Relevance` becomes the verdict unvalidated, and a missing `Explanation` gets its default |
| Cost.CalculateOpenAICost | end2end-benefits/benefits-claims/stream_app/app/assistant.py:214-222 | the cost is never negative, and it is zero for every model choice outside the price table |
| Cost.CostFollowsTable | end2end-benefits/benefits-claims/stream_app/app/assistant.py:215-220 | the cost is the table's per-1000-token prompt and completion rates applied to the counts, or zero outside the table |
| Cost.CostIsLinear | end2end-benefits/benefits-claims/stream_app/app/assistant.py:217-220 | the cost adds up over token counts and ignores the reported total |
| Cost.Gpt4oTiersShareRates | end2end-benefits/benefits-claims/stream_app/app/assistant.py:219-220 | `openai/gpt-4o` and `openai/gpt-4o-mini` are priced alike |
| Cost.LocalModelsAreFree | end2end-benefits/benefits-claims/stream_app/app/assistant.py:214-222 | every `ollama/` model costs nothing |
| Assistant.SearchResults | end2end-benefits/benefits-claims/stream_app/app/assistant.py:227-234 | `Vector` runs kNN on `question_answer_vector` with the query's embedding, `Hybrid` runs the hybrid search, and any other value runs the text search |
| Assistant.AnswerCall | end2end-benefits/benefits-claims/stream_app/app/assistant.py:236-237 | the answer call on the prompt built from the selected search's entries; `Assistant.GetAnswer` and `Assistant.JudgeAlwaysRuns` state its place in the pipeline |
| Assistant.GetAnswer | end2end-benefits/benefits-claims/stream_app/app/assistant.py:226-256 | an answer-call or judge failure propagates. Otherwise the record carries the answer, time, model choice and answer tokens of the answer call, and the verdict, explanation and tokens of the judge. Its cost is the non-negative price of its own answer tokens |
| Assistant.UnknownModelFailsFast | end2end-benefits/benefits-claims/stream_app/app/assistant.py:237 | an unknown model prefix fails the whole request with that error |
| Assistant.LocalAnswerIsFree | end2end-benefits/benefits-claims/stream_app/app/assistant.py:241 | a locally answered question reports zero cost |
| Assistant.JudgeAlwaysRuns | end2end-benefits/benefits-claims/stream_app/app/assistant.py:237-239 | once the answer call succeeds, the request succeeds exactly when the judge call does |
| Scenarios.OneEntryPrompt | end2end-benefits/benefits-claims/stream_app/app/assistant.py:127-145 | the prompt for the one disability entry contains both the question and the entry's answer |
| Scenarios.HostedAnswerWithUnparsedJudge | end2end-benefits/benefits-claims/stream_app/app/assistant.py:226-256 | a hosted model that answers every request with one reply and usage, judged by unparseable output, gives a record with that reply, the usage for both calls, `UNKNOWN`, the model choice and the table price |
| Scenarios.StubSearchFindsEntry | end2end-benefits/benefits-claims/stream_app/app/assistant.py:24-46 | the text search of the one-entry stub index returns that entry |
| Scenarios.StubScenario | end2end-benefits/benefits-claims/stream_app/app/assistant.py:226-256 | the stub walk-through reports 10/5/15 tokens for the answer and for the judge, `UNKNOWN`, and cost 0.000025 for `gpt-3.5-turbo` |
| Scenarios.SearchOutageScenario | end2end-benefits/benefits-claims/stream_app/app/assistant.py:226-237 | a search backend that always raises leaves every strategy with no entries, and the answer call for `openai/gpt-4o` is still made, on the bare instruction prompt |

## Left out

- User interface: the Streamlit screen, the database of conversations and
  feedback, and the `st.error` messages are not modelled. They live
  outside these functions or have no effect on the results.
- Environment and client construction: reading the environment and
  `.env`, and constructing the Elasticsearch client, the two OpenAI
  clients and the sentence encoder, are left out. The clients are parameters.
- Retrieval.Sources: Elasticsearch's ranking, the encoder and the chat
  models are unknown functions. The model states how the code uses their
  results, not what those results are.
- Retrieval.Sources: a `KeyError` on a malformed search response falls
  under the `try` and is modelled as a failed search. The hit sources are
  modelled as `Doc` records with the five returned fields.
- Retrieval.Sources: two exceptions escape `get_answer` uncaught and are
  not modelled. One is an exception from `model.encode` (lines 123 and
  228, outside any `try`), ruled out by a total `Embedder`. The other is a
  `KeyError` in `build_prompt` when a hit's `_source` lacks `category`,
  `question`, `answer` or `section` (line 141; the text query restricts no
  `_source` fields), ruled out by the five-field `Doc`.
- Retrieval.QueryShapes: the text query's `must` is a single object, not
  a one-element list. The model uses one list for both, which Elasticsearch
  treats alike.
- Retrieval.RetrievalBounded: the bound of five entries in the requested
  section holds only for an engine satisfying `Honours`. The code never
  checks what the engine returns.
- Chat.Complete: `time.time()` is replaced by a clock oracle that gives
  the measured duration of a request. Wall-clock values and their float
  subtraction are not modelled.
- Chat.Complete: the reply text is taken as a string. A `None` message
  content from the client is not modelled.
- Chat.EvaluateRelevance: `json.loads` is an oracle. A parsed object's
  members are modelled as strings, so non-string JSON values under
  `Relevance` or `Explanation` are not modelled.
- Chat.EvaluateRelevance: for a JSON value that is not an object,
  `.get` raises an `AttributeError` that escapes. The model reports it as
  the error `JudgeOutputNotObject`.
- Chat.JudgePrompt: the templates' `str.format` is modelled with the
  placeholders already substituted. The doubled braces are rendered as
  single ones, and braces inside the question or answer are inserted
  verbatim, as `format` does.
- Cost.CalculateOpenAICost: prices are exact reals, so IEEE
  double rounding is not modelled.
- Concurrency: the source serves one request at a time per call, and no
  concurrency is modelled.
