/**
 * The natural-language consultation service's `POST /llm/`
 * (consulta-natural-service/app/main.py): the stored records are scanned as
 * they stream in, the first five relevant to the query are selected, and the
 * answer generated from them is returned with the selection, which is sent as
 * `None` when empty.
 */
module ConsultaNatural {
  import opened Base
  import opened RecordSearch

  /** The prefix of every 500 detail. */
  const InternalError := "Error interno: "

  /**
   * `get_relevant_data`: the stream is consumed one document at a time and
   * reading stops right after the fifth relevant record; `consumed` is how
   * many documents were read.
   */
  method GetRelevantData(query: string, docs: seq<Record>) returns (filtered: seq<Record>, consumed: nat)
    ensures filtered == FirstRelevant(docs, Terms(query))
    ensures consumed <= |docs| && filtered == AllRelevant(docs[..consumed], Terms(query))
    ensures consumed < |docs| ==> |filtered| == Limit && 0 < consumed && Relevant(Terms(query), docs[consumed - 1])
  {
    filtered, consumed := Scan(Terms(query), docs);
  }

  /** The loop of `get_relevant_data`, reading the stream one document at a time. */
  method Scan(terms: seq<string>, docs: seq<Record>) returns (filtered: seq<Record>, consumed: nat)
    ensures filtered == FirstRelevant(docs, terms)
    ensures consumed <= |docs| && filtered == AllRelevant(docs[..consumed], terms)
    ensures consumed < |docs| ==> |filtered| == Limit && 0 < consumed && Relevant(terms, docs[consumed - 1])
  {
    filtered := [];
    consumed := 0;
    while consumed < |docs|
      invariant consumed <= |docs|
      invariant filtered == AllRelevant(docs[..consumed], terms)
      invariant |filtered| < Limit
    {
      var hit := Relevant(terms, docs[consumed]);
      ScanStep(docs, terms, consumed, hit);
      if hit {
        filtered := filtered + [docs[consumed]];
      }
      consumed := consumed + 1;
      if |filtered| >= Limit {
        break;
      }
    }
    if consumed == |docs| {
      assert docs[..consumed] == docs;
      assert filtered == FirstRelevant(docs, terms);
    }
  }

  /**
   * `process_query`: the selection and the generated answer, or a 500 whose
   * detail is "Error interno: " followed by the text of whatever was raised.
   */
  method ProcessQuery(query: string, stream: Result<seq<Record>, string>, generate: Generator)
    returns (r: Result<QueryResponse, string>)
    ensures stream.Err? ==> r == Err(InternalError + stream.error)
    ensures stream.Ok? ==>
      var data := FirstRelevant(stream.value, Terms(query));
      r == match generate(query, data)
           case Err(e) => Err(InternalError + e)
           case Ok(answer) => Ok(QueryResponse(answer, OrNone(data)))
  {
    if stream.Err? {
      return Err(InternalError + stream.error);
    }
    var relevantData, _ := GetRelevantData(query, stream.value);
    var answer := generate(query, relevantData);
    if answer.Err? {
      return Err(InternalError + answer.error);
    }
    return Ok(QueryResponse(answer.value, OrNone(relevantData)));
  }
}
