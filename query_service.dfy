/**
 * The query service's `POST /query/` (query-service/app/main.py): the stored
 * records are read into a list, the first five relevant to the query are
 * selected, and the answer generated from them is returned with the
 * selection, which is sent as `None` when empty.
 */
module QueryService {
  import opened Base
  import opened RecordSearch

  /**
   * `get_relevant_data`: every document of the stream is read into a list,
   * which is then scanned until the fifth relevant record.
   */
  method GetRelevantData(query: string, docs: seq<Record>) returns (filtered: seq<Record>)
    ensures filtered == FirstRelevant(docs, Terms(query))
  {
    filtered := Scan(Terms(query), docs);
  }

  /** The loop of `get_relevant_data` over the list read from the stream. */
  method Scan(terms: seq<string>, docs: seq<Record>) returns (filtered: seq<Record>)
    ensures filtered == FirstRelevant(docs, terms)
  {
    var records := docs;
    filtered := [];
    var i := 0;
    while i < |records|
      invariant 0 <= i <= |records|
      invariant filtered == AllRelevant(records[..i], terms)
      invariant |filtered| < Limit
    {
      var hit := Relevant(terms, records[i]);
      ScanStep(records, terms, i, hit);
      if hit {
        filtered := filtered + [records[i]];
        if |filtered| >= Limit {
          break;
        }
      }
      i := i + 1;
    }
    if i == |records| {
      assert records[..i] == records;
      assert filtered == FirstRelevant(records, terms);
    }
  }

  /**
   * `process_query`: the selection and the generated answer, or a 500 whose
   * detail is the text of whatever was raised reading the stream or
   * generating the answer.
   */
  method ProcessQuery(query: string, stream: Result<seq<Record>, string>, generate: Generator)
    returns (r: Result<QueryResponse, string>)
    ensures stream.Err? ==> r == Err(stream.error)
    ensures stream.Ok? ==>
      var data := FirstRelevant(stream.value, Terms(query));
      r == match generate(query, data)
           case Err(e) => Err(e)
           case Ok(answer) => Ok(QueryResponse(answer, OrNone(data)))
  {
    if stream.Err? {
      return Err(stream.error);
    }
    var relevantData := GetRelevantData(query, stream.value);
    var answer := generate(query, relevantData);
    if answer.Err? {
      return Err(answer.error);
    }
    return Ok(QueryResponse(answer.value, OrNone(relevantData)));
  }
}
