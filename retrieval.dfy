/** The three Elasticsearch query shapes of the assistant and the way a
    search response is turned into the list of retrieved FAQ entries. */
module Retrieval {
  import opened Wrappers

  /** One indexed FAQ entry (the `_source` of a hit). */
  datatype Doc = Doc(category: string, question: string, answer: string, section: string, id: string)

  /** One element of `response["hits"]["hits"]`. */
  datatype Hit = Hit(source: Doc)

  /** A sentence embedding. */
  type Vector = seq<real>

  /** `{"term": {field: value}}` */
  datatype TermFilter = Term(field: string, value: string)

  /** A clause of a `bool.must` list. */
  datatype Clause =
    | MultiMatch(query: string, fields: seq<string>, matchType: string)
    | Knn(field: string, queryVector: Vector, k: nat, numCandidates: nat, knnFilter: Option<TermFilter>)

  datatype BoolQuery = BoolQuery(must: seq<Clause>, filter: Option<TermFilter>)

  /** A search request body: `size`, `query` and an optional `_source` field list. */
  datatype SearchBody = SearchBody(size: nat, query: BoolQuery, sourceFields: Option<seq<string>>)

  /** `es_client.search(index=…, body=…)`, already reduced to its list of hits.
      Any exception (transport, malformed query, a response without
      `hits.hits`) is a `Failure`. */
  type SearchClient = (string, SearchBody) -> Result<seq<Hit>, string>

  /** `model.encode`. */
  type Embedder = string -> Vector

  /** The dictionary `{'question': …, 'section': …}` handed to the hybrid search. */
  datatype QuestionQuery = QuestionQuery(question: string, section: string)

  const DefaultIndex: string := "benefit-claims"
  const VectorField: string := "question_answer_vector"
  const LexicalFields: seq<string> := ["question^3", "answer", "category"]
  const ReturnedFields: seq<string> := ["answer", "section", "question", "category", "id"]

  function SectionTerm(section: string): TermFilter {
    Term("section", section)
  }

  function TextQuery(query: string, section: string): SearchBody {
    SearchBody(5,
      BoolQuery([MultiMatch(query, LexicalFields, "best_fields")], Some(SectionTerm(section))),
      None)
  }

  function KnnQuery(field: string, vector: Vector, section: string): SearchBody {
    SearchBody(5,
      BoolQuery([Knn(field, vector, 5, 10000, Some(SectionTerm(section)))], None),
      Some(ReturnedFields))
  }

  function HybridQuery(query: string, vector: Vector, section: string): SearchBody {
    SearchBody(5,
      BoolQuery([Knn(VectorField, vector, 5, 10000, None),
                 MultiMatch(query, LexicalFields, "best_fields")],
                Some(SectionTerm(section))),
      Some(ReturnedFields))
  }

  /** `[hit["_source"] for hit in hits]` inside the `try`, `[]` from the `except`. */
  function Sources(response: Result<seq<Hit>, string>): (r: seq<Doc>)
    ensures response.Failure? ==> r == []
    ensures response.Success? ==>
      |r| == |response.value| && forall i :: 0 <= i < |r| ==> r[i] == response.value[i].source
    decreases if response.Success? then |response.value| else 0
  {
    match response
    case Failure(_) => []
    case Success(hits) =>
      if |hits| == 0 then []
      else [hits[0].source] + Sources(Success(hits[1..]))
  }

  function ElasticSearchText(query: string, section: string, search: SearchClient,
                             indexName: string := DefaultIndex): (r: seq<Doc>)
    ensures search(indexName, TextQuery(query, section)).Failure? ==> r == []
    ensures var resp := search(indexName, TextQuery(query, section));
      resp.Success? ==> |r| == |resp.value| && forall i :: 0 <= i < |r| ==> r[i] == resp.value[i].source
  {
    Sources(search(indexName, TextQuery(query, section)))
  }

  function ElasticSearchKnn(field: string, vector: Vector, section: string, search: SearchClient,
                            indexName: string := DefaultIndex): (r: seq<Doc>)
    ensures search(indexName, KnnQuery(field, vector, section)).Failure? ==> r == []
    ensures var resp := search(indexName, KnnQuery(field, vector, section));
      resp.Success? ==> |r| == |resp.value| && forall i :: 0 <= i < |r| ==> r[i] == resp.value[i].source
  {
    Sources(search(indexName, KnnQuery(field, vector, section)))
  }

  function ElasticSearchHybrid(query: string, vector: Vector, section: string, search: SearchClient,
                               indexName: string := DefaultIndex): (r: seq<Doc>)
    ensures search(indexName, HybridQuery(query, vector, section)).Failure? ==> r == []
    ensures var resp := search(indexName, HybridQuery(query, vector, section));
      resp.Success? ==> |r| == |resp.value| && forall i :: 0 <= i < |r| ==> r[i] == resp.value[i].source
  {
    Sources(search(indexName, HybridQuery(query, vector, section)))
  }

  /** Embeds the question and runs the hybrid search on the default index. */
  function QuestionAnswerHybrid(q: QuestionQuery, search: SearchClient, encode: Embedder): (r: seq<Doc>)
    ensures r == Sources(search(DefaultIndex, HybridQuery(q.question, encode(q.question), q.section)))
  {
    ElasticSearchHybrid(q.question, encode(q.question), q.section, search)
  }

  // ---------------------------------------------------------------------
  // What the query shapes ask of the search engine.

  /** Every term filter of a request: the `bool` filter and the filters
      inside its kNN clauses. */
  function Filters(body: SearchBody): seq<TermFilter> {
    (if body.query.filter.Some? then [body.query.filter.value] else []) + KnnFilters(body.query.must)
  }

  function KnnFilters(clauses: seq<Clause>): seq<TermFilter>
    decreases |clauses|
  {
    if |clauses| == 0 then []
    else
      (if clauses[0].Knn? && clauses[0].knnFilter.Some? then [clauses[0].knnFilter.value] else [])
      + KnnFilters(clauses[1..])
  }

  function DocField(d: Doc, field: string): Option<string> {
    if field == "category" then Some(d.category)
    else if field == "question" then Some(d.question)
    else if field == "answer" then Some(d.answer)
    else if field == "section" then Some(d.section)
    else if field == "id" then Some(d.id)
    else None
  }

  predicate Satisfies(d: Doc, f: TermFilter) {
    DocField(d, f.field) == Some(f.value)
  }

  predicate Restricts(body: SearchBody, field: string, value: string) {
    Term(field, value) in Filters(body)
  }

  /** A search engine that keeps to the request: no more hits than `size`,
      each hit passing every term filter of the request. */
  ghost predicate Honours(search: SearchClient) {
    forall index, body ::
      search(index, body).Success? ==>
        && |search(index, body).value| <= body.size
        && forall i, f :: 0 <= i < |search(index, body).value| && f in Filters(body) ==>
             Satisfies(search(index, body).value[i].source, f)
  }

  /** The three query shapes: five results, a `section` term filter (in the
      kNN clause for the plain kNN search, on the `bool` query otherwise),
      `k` 5 over 10000 candidates, `question` boosted 3 times. */
  lemma QueryShapes(query: string, field: string, vector: Vector, section: string)
    ensures var b := TextQuery(query, section);
      && b.size == 5 && Restricts(b, "section", section) && b.query.filter == Some(SectionTerm(section))
      && b.query.must == [MultiMatch(query, ["question^3", "answer", "category"], "best_fields")]
    ensures var b := KnnQuery(field, vector, section);
      && b.size == 5 && Restricts(b, "section", section) && b.query.filter.None?
      && b.query.must == [Knn(field, vector, 5, 10000, Some(Term("section", section)))]
      && b.sourceFields == Some(["answer", "section", "question", "category", "id"])
    ensures var b := HybridQuery(query, vector, section);
      && b.size == 5 && Restricts(b, "section", section)
      && b.query.must == [Knn("question_answer_vector", vector, 5, 10000, None),
                          MultiMatch(query, ["question^3", "answer", "category"], "best_fields")]
      && b.sourceFields == Some(["answer", "section", "question", "category", "id"])
  {
    assert KnnFilters(HybridQuery(query, vector, section).query.must[1..]) == [];
  }

  /** Each hit of an honouring search engine passes the section filter. */
  lemma HonouredSearch(search: SearchClient, index: string, body: SearchBody, section: string)
    requires Honours(search)
    requires Restricts(body, "section", section)
    ensures forall d :: d in Sources(search(index, body)) ==> d.section == section
    ensures |Sources(search(index, body))| <= body.size
  {
    var r := Sources(search(index, body));
    forall d | d in r ensures d.section == section {
      var i :| 0 <= i < |r| && r[i] == d;
      assert Satisfies(search(index, body).value[i].source, Term("section", section));
    }
  }

  /** With a search engine that keeps to the request, every retrieval
      returns at most five entries, all of the requested section. */
  lemma RetrievalBounded(search: SearchClient, encode: Embedder, query: string, field: string,
                         vector: Vector, section: string)
    requires Honours(search)
    ensures var r := ElasticSearchText(query, section, search);
      |r| <= 5 && forall d :: d in r ==> d.section == section
    ensures var r := ElasticSearchKnn(field, vector, section, search);
      |r| <= 5 && forall d :: d in r ==> d.section == section
    ensures var r := ElasticSearchHybrid(query, vector, section, search);
      |r| <= 5 && forall d :: d in r ==> d.section == section
    ensures var r := QuestionAnswerHybrid(QuestionQuery(query, section), search, encode);
      |r| <= 5 && forall d :: d in r ==> d.section == section
  {
    QueryShapes(query, field, vector, section);
    QueryShapes(query, field, encode(query), section);
    HonouredSearch(search, DefaultIndex, TextQuery(query, section), section);
    HonouredSearch(search, DefaultIndex, KnnQuery(field, vector, section), section);
    HonouredSearch(search, DefaultIndex, HybridQuery(query, vector, section), section);
    HonouredSearch(search, DefaultIndex, HybridQuery(query, encode(query), section), section);
  }
}
