/**
 * What the browser pages see of HTTP: a request is a verb and a path, and a
 * `fetch` either fails before any response arrives or yields a status, a
 * status text and a body that `response.json()` may or may not parse. The
 * persona record is the JSON shape the record service returns.
 */
module Http {
  import opened Base
  import opened Strings

  datatype Verb = GET | POST | PUT | DELETE

  datatype Request = Request(verb: Verb, path: string)

  /** The state of the control that triggered a request, at the moment the request left. */
  datatype Control = Control(disabled: bool, text: string)

  /** A request together with the state of its trigger control while it was in flight. */
  datatype Sent = Sent(request: Request, trigger: Control)

  /**
   * The `detail` member of a JSON error object: a string (the services'
   * `HTTPException` texts) or an array of `count` objects (a request-validation
   * error list).
   */
  datatype Detail = Text(text: string) | Items(count: nat)

  /**
   * What `response.json()` makes of a body: a parse failure (the text of the
   * exception it rejects with), a JSON object that is not the expected payload
   * (an error object, whose `detail` may be absent), or the expected payload.
   */
  datatype Body<T> = Unparseable(reason: string) | Other(detail: Option<Detail>) | Payload(value: T)

  /** The outcome of one `fetch`: rejected with an exception text, or a response. */
  datatype Response<T> = Failed(reason: string) | Reply(status: nat, statusText: string, body: Body<T>)

  /** `response.ok`. */
  predicate IsOk(status: nat) { 200 <= status <= 299 }

  const NotFoundStatus: nat := 404

  /** `n` copies of `s`. */
  function Repeat(s: string, n: nat): (r: seq<string>)
    ensures |r| == n && forall i :: 0 <= i < n ==> r[i] == s
  {
    seq(n, _ => s)
  }

  /** JavaScript's `String(detail)`: an array of objects prints as `[object Object]` per item, comma-separated. */
  function DetailString(d: Detail): string
  {
    match d
    case Text(s) => s
    case Items(n) => Join(Repeat("[object Object]", n), ",")
  }

  /**
   * `String(data.detail || fallback)`: the body's `detail` when it is truthy (a
   * non-empty string, or any array, even an empty one), the fallback otherwise
   * (also when the body is not an object with a `detail`).
   */
  function DetailOr<T>(body: Body<T>, fallback: string): (r: string)
    ensures (body.Other? && body.detail.Some? && body.detail.value.Text? && body.detail.value.text != "")
      ==> r == body.detail.value.text
    ensures (body.Other? && body.detail.Some? && body.detail.value.Items?) ==> r == DetailString(body.detail.value)
    ensures !(body.Other? && body.detail.Some? && body.detail.value != Text("")) ==> r == fallback
  {
    match body
    case Other(Some(Text(s))) => if s != "" then s else fallback
    case Other(Some(Items(n))) => DetailString(Items(n))
    case _ => fallback
  }

  /** The record collection of the record API, as the pages address it. */
  const PersonasPath := "/api/personas/"

  /** The identifier-scoped path `/api/personas/{doc}`. */
  function PersonaPath(doc: string): (p: string)
    ensures |p| > |PersonasPath| - 1 && p[..|PersonasPath|] == PersonasPath
    ensures p[|PersonasPath|..] == doc
  {
    PersonasPath + doc
  }

  /** The page the pages return to after a finished operation. */
  const IndexPage := "../index.html"

  /**
   * The persona record as JSON, with the server's field names: the read
   * endpoint returns the stored fields plus `id`, and `foto_url`.
   */
  datatype PersonaJson = PersonaJson(
    id: string,
    tipoDocumento: string,
    numeroDocumento: string,
    primerNombre: string,
    segundoNombre: Option<string>,
    apellidos: string,
    fechaNacimiento: string,
    genero: string,
    email: string,
    celular: string,
    fotoUrl: Option<string>)

  /** The error shared by the pages for a 404 on a persona. */
  const NotFoundText := "Persona no encontrada"

  /** `${prefix}${status}`: a message naming the status code in decimal. */
  function StatusText(prefix: string, status: nat): (r: string)
    ensures |r| > |prefix| && r[..|prefix|] == prefix
    ensures IsDigits(r[|prefix|..]) && DigitsValue(r[|prefix|..]) == status
    ensures r[|prefix|] == '0' ==> |r| == |prefix| + 1
  {
    var r := prefix + NatToString(status);
    assert r[|prefix|..] == NatToString(status);
    r
  }

  /**
   * The error a lookup throws for a non-2xx status: a 404 is named, any other
   * status is quoted after the page's prefix.
   */
  function StatusError(prefix: string, status: nat): string
  {
    if status == NotFoundStatus then NotFoundText else StatusText(prefix, status)
  }

  /**
   * With a prefix that does not open like the 404 text, a 404 and any other
   * status always give different messages, and the other statuses quote
   * their code.
   */
  lemma StatusErrorTellsNotFound(prefix: string, status: nat)
    requires prefix != [] && prefix[0] != NotFoundText[0]
    ensures (StatusError(prefix, status) == NotFoundText) <==> status == NotFoundStatus
    ensures status != NotFoundStatus ==> StatusError(prefix, status)[|prefix|..] == NatToString(status)
  {
    if status != NotFoundStatus {
      assert StatusError(prefix, status)[0] == prefix[0];
    }
  }
}
