/**
 * The natural-language consultation page (frontend/app/llm.js): a simulated
 * retrieval over a fixed list (`searchWithRAG` with the `queryLLM` stub,
 * reached from a prompt box), and `enviarConsulta`, which posts a question to
 * the query service and renders its answer and the relevant records.
 */
module LlmPage {
  import opened Base
  import opened Strings
  import opened Http

  // ---- Simulated retrieval ----

  datatype Item = Item(documento: string, nombre: string, ciudad: string)

  /** The fixed list the simulated retrieval searches. */
  const SimulatedData: seq<Item> := [
    Item("123", "Juan Pérez", "Bogotá"),
    Item("456", "Ana Gómez", "Medellín")
  ]

  /** `item.nombre.includes(query) || item.ciudad.includes(query)`. */
  predicate Mentions(item: Item, query: string)
  {
    Contains(item.nombre, query) || Contains(item.ciudad, query)
  }

  /** `data.filter(...)`: the items mentioning the query, in their order. */
  function Retrieve(data: seq<Item>, query: string): (r: seq<Item>)
    ensures |r| <= |data|
  {
    if data == [] then []
    else (if Mentions(data[0], query) then [data[0]] else []) + Retrieve(data[1..], query)
  }

  /** Retrieval keeps exactly the items that mention the query, in their original order. */
  lemma {:induction false} RetrieveFacts(data: seq<Item>, query: string)
    ensures IsSubsequence(Retrieve(data, query), data)
    ensures forall x :: x in Retrieve(data, query) <==> x in data && Mentions(x, query)
  {
    if data != [] {
      RetrieveFacts(data[1..], query);
      var rest := Retrieve(data[1..], query);
      if Mentions(data[0], query) {
        assert Retrieve(data, query) == [data[0]] + rest;
        SubsequenceCons(data[0], rest, data[1..]);
      } else {
        assert Retrieve(data, query) == rest;
        SubsequenceWeaken(rest, data);
      }
      assert data == [data[0]] + data[1..];
    }
  }

  /** `JSON.stringify` of one item; the fixed data holds no character JSON would escape. */
  function ItemJson(i: Item): string
  {
    "{\"documento\":\"" + i.documento + "\",\"nombre\":\"" + i.nombre + "\",\"ciudad\":\"" + i.ciudad + "\"}"
  }

  /** `JSON.stringify` of a list of items. */
  function ItemsJson(items: seq<Item>): string
  {
    "[" + Join(seq(|items|, k requires 0 <= k < |items| => ItemJson(items[k])), ",") + "]"
  }

  const PromptHead := "Basado en estos datos: "
  const PromptJoint := ", responde: "

  /**
   * The prompt: the fixed lead-in, the retrieved items as JSON (each item's
   * JSON appears in it), the joint ", responde: " and the question.
   */
  function Prompt(query: string, results: seq<Item>): (p: string)
    ensures |p| >= |PromptHead| && p[..|PromptHead|] == PromptHead
    ensures forall x :: x in results ==> Contains(p, ItemJson(x))
    ensures |p| >= |PromptJoint| + |query|
    ensures p[|p| - |query| - |PromptJoint|..|p| - |query|] == PromptJoint
    ensures p[|p| - |query|..] == query
  {
    var tail := PromptJoint + query;
    var p := PromptHead + ItemsJson(results) + tail;
    assert p[|p| - |query|..] == query;
    assert p[|p| - |tail|..] == tail;
    assert p[|p| - |query| - |PromptJoint|..|p| - |query|] == tail[..|PromptJoint|];
    assert forall x :: x in results ==> Contains(p, ItemJson(x)) by {
      forall x | x in results ensures Contains(p, ItemJson(x)) {
        ItemsMentioned(results, x);
        ContainsWithin(PromptHead, ItemsJson(results), tail, ItemJson(x));
      }
    }
    p
  }

  /** Each item's JSON occurs in the JSON of the list. */
  lemma ItemsMentioned(items: seq<Item>, x: Item)
    requires x in items
    ensures Contains(ItemsJson(items), ItemJson(x))
  {
    var k :| 0 <= k < |items| && items[k] == x;
    var parts := seq(|items|, j requires 0 <= j < |items| => ItemJson(items[j]));
    JoinHasPart(parts, ",", k);
    ContainsWithin("[", Join(parts, ","), "]", ItemJson(x));
  }

  const SimulatedPrefix := "Respuesta simulada para: "

  datatype Choice = Choice(content: string)

  /** `queryLLM`: the stub answers with a single choice echoing the prompt. */
  function QueryLlm(prompt: string): (choices: seq<Choice>)
    ensures |choices| == 1
    ensures |choices[0].content| == |SimulatedPrefix| + |prompt|
    ensures choices[0].content[|SimulatedPrefix|..] == prompt
  {
    [Choice(SimulatedPrefix + prompt)]
  }

  /**
   * `searchWithRAG`: the content of the stub's first choice for the prompt
   * built from the retrieval. It opens with the stub's prefix and the
   * lead-in, quotes every retrieved item and ends with the question.
   */
  function SearchWithRag(query: string): (r: string)
    ensures |r| >= |SimulatedPrefix| + |PromptHead| + |query|
    ensures r[..|SimulatedPrefix| + |PromptHead|] == SimulatedPrefix + PromptHead
    ensures forall x :: x in Retrieve(SimulatedData, query) ==> Contains(r, ItemJson(x))
    ensures r[|r| - |query|..] == query
  {
    var results := Retrieve(SimulatedData, query);
    SimulatedAnswerEchoesQuestion(query, results);
    QueryLlm(Prompt(query, results))[0].content
  }

  /**
   * The simulated answer is the stub's prefix, then a prompt that opens with
   * the fixed lead-in and closes with the question itself.
   */
  lemma SimulatedAnswerEchoesQuestion(query: string, results: seq<Item>)
    ensures var prompt := Prompt(query, results);
      var answer := QueryLlm(prompt)[0].content;
      && answer == SimulatedPrefix + prompt
      && prompt[..|PromptHead|] == PromptHead
      && answer[|answer| - |query|..] == query
      && |answer| >= |SimulatedPrefix| + |PromptHead| + |query|
      && answer[..|SimulatedPrefix| + |PromptHead|] == SimulatedPrefix + PromptHead
      && forall x :: x in results ==> Contains(answer, ItemJson(x))
  {
    var prompt := Prompt(query, results);
    var answer := SimulatedPrefix + prompt;
    assert answer[|answer| - |query|..] == prompt[|prompt| - |query|..];
    assert answer[..|SimulatedPrefix| + |PromptHead|] == SimulatedPrefix + prompt[..|PromptHead|];
    forall x | x in results ensures Contains(answer, ItemJson(x)) {
      ContainsWithin(SimulatedPrefix, prompt, "", ItemJson(x));
      assert SimulatedPrefix + prompt + "" == answer;
    }
  }

  // ---- The consultation form ----

  /** A relevant record as the page reads it. */
  datatype Listed = Listed(primerNombre: string, segundoNombre: Option<string>, apellidos: string, numeroDocumento: string)

  /** The query service's answer. */
  datatype Answer = Answer(answer: string, relevantData: Option<seq<Listed>>)

  const EmptyQuestion := "Por favor, ingrese una pregunta"
  const ProcessingHtml := "<p>Procesando consulta...</p>"
  const ErrorHtml := "<p class=\"error\">Error al procesar la consulta. Por favor, intente nuevamente.</p>"
  const ListHead := "<p><strong>Datos relevantes encontrados:</strong></p><ul>"
  const ListTail := "</ul>"

  /** The answer paragraph. */
  function AnswerHtml(answer: string): string
  {
    "<p><strong>Respuesta:</strong> " + answer + "</p>"
  }

  /** `item.segundo_nombre || ''`: a missing or empty middle name renders as nothing. */
  function MiddleName(segundo: Option<string>): string
  {
    if segundo.Some? then segundo.value else ""
  }

  /** One list entry: names and document number. */
  function ItemHtml(item: Listed): string
  {
    "<li>" + item.primerNombre + " " + MiddleName(item.segundoNombre) + " " + item.apellidos
    + " (Doc: " + item.numeroDocumento + ")</li>"
  }

  /** A record without a middle name renders exactly as one whose middle name is empty. */
  lemma MissingMiddleNameRendersEmpty(p: string, a: string, n: string)
    ensures ItemHtml(Listed(p, None, a, n)) == ItemHtml(Listed(p, Some(""), a, n))
    ensures MiddleName(None) == ""
  {
  }

  /** The entries of a list, in order. */
  function ItemsHtml(items: seq<Listed>): string
  {
    if items == [] then "" else ItemsHtml(items[..|items| - 1]) + ItemHtml(items[|items| - 1])
  }

  /** The relevant records are listed only when there are some. */
  predicate HasRelevant(data: Option<seq<Listed>>)
  {
    data.Some? && |data.value| > 0
  }

  /**
   * What the result area ends up showing: the fixed error paragraph for a
   * transport failure, a non-2xx status or an unreadable body; otherwise the
   * answer, followed by the list of relevant records when there are some.
   */
  function ResultHtml(resp: Response<Answer>): (html: string)
    ensures (resp.Failed? || !IsOk(resp.status) || resp.body.Unparseable?) ==> html == ErrorHtml
    ensures resp.Reply? && IsOk(resp.status) && resp.body.Payload? && !HasRelevant(resp.body.value.relevantData)
            ==> html == AnswerHtml(resp.body.value.answer)
    ensures resp.Reply? && IsOk(resp.status) && resp.body.Other? ==> html == AnswerHtml("undefined")
  {
    if resp.Failed? || !IsOk(resp.status) then ErrorHtml
    else match resp.body
      case Unparseable(_) => ErrorHtml
      // A JSON object without the expected members: `data.answer` is `undefined`.
      case Other(_) => AnswerHtml("undefined")
      case Payload(data) =>
        if HasRelevant(data.relevantData)
        then AnswerHtml(data.answer) + ListHead + ItemsHtml(data.relevantData.value) + ListTail
        else AnswerHtml(data.answer)
  }

  /** A question posted, with what the result area showed while it was in flight. */
  datatype Posted = Posted(consulta: string, showing: string)

  class LlmPagePanel {
    var alerts: seq<string>
    var resultado: string
    var sent: seq<Posted>

    constructor ()
      ensures alerts == [] && resultado == "" && sent == []
    {
      alerts := [];
      resultado := "";
      sent := [];
    }

    /**
     * `handleNaturalLanguageQuery`: a cancelled or empty prompt does
     * nothing; otherwise the simulated answer is alerted.
     */
    method HandleNaturalLanguageQuery(input: Option<string>)
      modifies this`alerts
      ensures input.Some? && input.value != "" ==> alerts == old(alerts) + [SearchWithRag(input.value)]
      ensures !(input.Some? && input.value != "") ==> alerts == old(alerts)
    {
      if input.Some? && input.value != "" {
        var query := input.value;
        var results := Retrieve(SimulatedData, query);
        var prompt := Prompt(query, results);
        var response := QueryLlm(prompt);
        alerts := alerts + [response[0].content];
      }
    }

    /** The list entries appended one by one, as the `forEach` does. */
    method AppendItems(html: string, items: seq<Listed>) returns (out: string)
      ensures out == html + ItemsHtml(items)
    {
      out := html;
      var i := 0;
      while i < |items|
        invariant 0 <= i <= |items|
        invariant out == html + ItemsHtml(items[..i])
      {
        assert items[..i + 1][..i] == items[..i];
        out := out + ItemHtml(items[i]);
        i := i + 1;
      }
      assert items[..i] == items;
    }

    /**
     * `enviarConsulta`: an empty question is refused with an alert and
     * nothing is sent; otherwise the question is posted while "processing" is
     * shown, and the result area ends as `ResultHtml` of the reply.
     */
    method EnviarConsulta(consulta: string, resp: Response<Answer>)
      modifies this
      ensures consulta == "" ==> alerts == old(alerts) + [EmptyQuestion] && resultado == old(resultado) && sent == old(sent)
      ensures consulta != "" ==> alerts == old(alerts) && resultado == ResultHtml(resp)
                                 && sent == old(sent) + [Posted(consulta, ProcessingHtml)]
    {
      if consulta == "" {
        alerts := alerts + [EmptyQuestion];
        return;
      }
      resultado := ProcessingHtml;
      sent := sent + [Posted(consulta, resultado)];
      if resp.Failed? || !IsOk(resp.status) || resp.body.Unparseable? {
        resultado := ErrorHtml;
        return;
      }
      if resp.body.Other? {
        resultado := AnswerHtml("undefined");
        return;
      }
      var data := resp.body.value;
      var html := AnswerHtml(data.answer);
      if data.relevantData.Some? && |data.relevantData.value| > 0 {
        html := html + ListHead;
        html := AppendItems(html, data.relevantData.value);
        html := html + ListTail;
      }
      resultado := html;
    }
  }
}
