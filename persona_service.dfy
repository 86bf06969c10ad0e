/**
 * The record service (main-service/app/main.py): the request-body rules of
 * `PersonaBase` (two enumerations and four string validators) and the four
 * handlers over the `personas` collection, a map from document number to
 * stored record. Every successful write posts one event to the log service;
 * here that post is an event appended to `posted`.
 */
module PersonaService {
  import opened Base
  import opened Strings
  import opened Http
  import opened PersonaRules
  import FormPage
  import UpdatePage

  // ---- Enumerations ----

  datatype DocumentType = TarjetaIdentidad | Cedula

  /** The enumeration's string value, the only text the service accepts and returns. */
  function DocumentTypeValue(t: DocumentType): string
  {
    match t
    case TarjetaIdentidad => "Tarjeta de identidad"
    case Cedula => "Cédula"
  }

  /** Pydantic's coercion of a string into `DocumentType`. */
  function ParseDocumentType(s: string): (r: Option<DocumentType>)
    ensures r.Some? ==> DocumentTypeValue(r.value) == s
    ensures r.None? ==> forall t :: DocumentTypeValue(t) != s
  {
    if s == "Tarjeta de identidad" then Some(TarjetaIdentidad)
    else if s == "Cédula" then Some(Cedula)
    else None
  }

  datatype Gender = Masculino | Femenino | NoBinario | PrefieroNoReportar

  function GenderValue(g: Gender): string
  {
    match g
    case Masculino => "Masculino"
    case Femenino => "Femenino"
    case NoBinario => "No binario"
    case PrefieroNoReportar => "Prefiero no reportar"
  }

  /** Pydantic's coercion of a string into `Gender`. */
  function ParseGender(s: string): (r: Option<Gender>)
    ensures r.Some? ==> GenderValue(r.value) == s
    ensures r.None? ==> forall g :: GenderValue(g) != s
  {
    if s == "Masculino" then Some(Masculino)
    else if s == "Femenino" then Some(Femenino)
    else if s == "No binario" then Some(NoBinario)
    else if s == "Prefiero no reportar" then Some(PrefieroNoReportar)
    else None
  }

  /** Every enumeration value parses back to itself. */
  lemma EnumRoundTrip(t: DocumentType, g: Gender)
    ensures ParseDocumentType(DocumentTypeValue(t)) == Some(t)
    ensures ParseGender(GenderValue(g)) == Some(g)
  {
  }

  // ---- Field validators ----

  /** `validate_document_number`: digits only (so not empty) and at most 10 of them. */
  predicate DocumentNumberValid(v: string) { IsDigits(v) && |v| <= 10 }

  /** `validate_names`: an empty name passes; otherwise not all digits and at most 30 characters. */
  predicate NameValid(v: string) { v == "" || (!IsDigits(v) && |v| <= 30) }

  /** The middle name is optional: `None` passes. */
  predicate MiddleNameValid(v: Option<string>) { v.None? || NameValid(v.value) }

  /** `validate_last_names`: not all digits and at most 60 characters (so empty passes). */
  predicate LastNamesValid(v: string) { !IsDigits(v) && |v| <= 60 }

  /** `validate_phone`: exactly 10 digits. */
  predicate PhoneValid(v: string) { IsDigits(v) && |v| == 10 }

  /** The fields of `PersonaBase`, in declaration order. */
  datatype Field = TipoDocumento | NumeroDocumento | PrimerNombre | SegundoNombre | Apellidos
                 | FechaNacimiento | Genero | Email | Celular

  function FieldRank(f: Field): nat
  {
    match f
    case TipoDocumento => 0
    case NumeroDocumento => 1
    case PrimerNombre => 2
    case SegundoNombre => 3
    case Apellidos => 4
    case FechaNacimiento => 5
    case Genero => 6
    case Email => 7
    case Celular => 8
  }

  function FieldAt(k: nat): (f: Field)
    requires k < 9
    ensures FieldRank(f) == k
  {
    [TipoDocumento, NumeroDocumento, PrimerNombre, SegundoNombre, Apellidos,
     FechaNacimiento, Genero, Field.Email, Celular][k]
  }

  /** Which fields of a body fail their check. */
  datatype FieldChecks = FieldChecks(tipoDocumento: bool, numeroDocumento: bool, primerNombre: bool,
                                     segundoNombre: bool, apellidos: bool, fechaNacimiento: bool,
                                     genero: bool, email: bool, celular: bool)

  predicate Fails(f: Field, c: FieldChecks)
  {
    match f
    case TipoDocumento => c.tipoDocumento
    case NumeroDocumento => c.numeroDocumento
    case PrimerNombre => c.primerNombre
    case SegundoNombre => c.segundoNombre
    case Apellidos => c.apellidos
    case FechaNacimiento => c.fechaNacimiento
    case Genero => c.genero
    case Email => c.email
    case Celular => c.celular
  }

  /** The checks of a body; whether the birth date parses and the e-mail is a valid address are given. */
  function Checks(p: FormData, dateOk: bool, emailOk: bool): FieldChecks
  {
    FieldChecks(ParseDocumentType(p.tipoDocumento).None?, !DocumentNumberValid(p.numeroDocumento),
                !NameValid(p.primerNombre), !MiddleNameValid(p.segundoNombre), !LastNamesValid(p.apellidos),
                !dateOk, ParseGender(p.genero).None?, !emailOk, !PhoneValid(p.celular))
  }

  /** The failing fields among the first `k`, in declaration order. */
  function FailedUpto(c: FieldChecks, k: nat): seq<Field>
    requires k <= 9
  {
    if k == 0 then []
    else FailedUpto(c, k - 1) + (if Fails(FieldAt(k - 1), c) then [FieldAt(k - 1)] else [])
  }

  lemma {:induction false} FailedUptoFacts(c: FieldChecks, k: nat)
    requires k <= 9
    ensures forall f :: f in FailedUpto(c, k) <==> FieldRank(f) < k && Fails(f, c)
    ensures forall i, j :: 0 <= i < j < |FailedUpto(c, k)| ==> FieldRank(FailedUpto(c, k)[i]) < FieldRank(FailedUpto(c, k)[j])
    ensures forall i :: 0 <= i < |FailedUpto(c, k)| ==> FieldRank(FailedUpto(c, k)[i]) < k
  {
    if k > 0 {
      FailedUptoFacts(c, k - 1);
      var head := FailedUpto(c, k - 1);
      var last := if Fails(FieldAt(k - 1), c) then [FieldAt(k - 1)] else [];
      forall f ensures f in head + last <==> FieldRank(f) < k && Fails(f, c) {
        if FieldRank(f) == k - 1 {
          assert f == FieldAt(k - 1);
        }
      }
    }
  }

  /**
   * The fields a request body fails on, in declaration order: each field is
   * checked on its own and every failure is reported.
   */
  function FieldErrors(p: FormData, dateOk: bool, emailOk: bool): (errs: seq<Field>)
    ensures forall f :: f in errs <==> Fails(f, Checks(p, dateOk, emailOk))
    ensures forall i, j :: 0 <= i < j < |errs| ==> FieldRank(errs[i]) < FieldRank(errs[j])
  {
    FailedUptoFacts(Checks(p, dateOk, emailOk), 9);
    FailedUpto(Checks(p, dateOk, emailOk), 9)
  }

  /** A validated `PersonaCreate`. */
  datatype Persona = Persona(
    tipoDocumento: DocumentType,
    numeroDocumento: string,
    primerNombre: string,
    segundoNombre: Option<string>,
    apellidos: string,
    fechaNacimiento: string,
    genero: Gender,
    email: string,
    celular: string)

  /** The record as JSON text fields, the shape a page sends. */
  function Raw(q: Persona): FormData
  {
    FormData(DocumentTypeValue(q.tipoDocumento), q.numeroDocumento, q.primerNombre, q.segundoNombre,
             q.apellidos, q.fechaNacimiento, GenderValue(q.genero), q.email, q.celular)
  }

  /** Request-body validation: the record, or every failing field. */
  function Validate(p: FormData, dateOk: bool, emailOk: bool): (r: Result<Persona, seq<Field>>)
    ensures r.Ok? <==> FieldErrors(p, dateOk, emailOk) == []
    ensures r.Err? ==> r.error == FieldErrors(p, dateOk, emailOk)
    ensures r.Ok? ==> Raw(r.value) == p
  {
    if FieldErrors(p, dateOk, emailOk) != [] then Err(FieldErrors(p, dateOk, emailOk))
    else
      AcceptedEnumsParse(p, dateOk, emailOk);
      Ok(Persona(ParseDocumentType(p.tipoDocumento).value, p.numeroDocumento, p.primerNombre, p.segundoNombre,
                 p.apellidos, p.fechaNacimiento, ParseGender(p.genero).value, p.email, p.celular))
  }

  /** A body without failing fields holds a value of each enumeration. */
  lemma AcceptedEnumsParse(p: FormData, dateOk: bool, emailOk: bool)
    requires FieldErrors(p, dateOk, emailOk) == []
    ensures ParseDocumentType(p.tipoDocumento).Some? && ParseGender(p.genero).Some?
  {
    assert !Fails(TipoDocumento, Checks(p, dateOk, emailOk)) && !Fails(Genero, Checks(p, dateOk, emailOk));
  }

  /** A body fails validation exactly when some field fails its check. */
  lemma {:induction false} NoFailingFieldAccepted(p: FormData, dateOk: bool, emailOk: bool)
    ensures FieldErrors(p, dateOk, emailOk) == [] <==> forall f :: !Fails(f, Checks(p, dateOk, emailOk))
  {
    var errs := FieldErrors(p, dateOk, emailOk);
    if errs != [] {
      assert errs[0] in errs;
    }
  }

  /** A record the service wrote out validates back to itself. */
  lemma {:induction false} ValidateRaw(q: Persona)
    requires DocumentNumberValid(q.numeroDocumento) && NameValid(q.primerNombre)
    requires MiddleNameValid(q.segundoNombre) && LastNamesValid(q.apellidos) && PhoneValid(q.celular)
    ensures Validate(Raw(q), true, true) == Ok(q)
  {
    EnumRoundTrip(q.tipoDocumento, q.genero);
    NoFailingFieldAccepted(Raw(q), true, true);
  }

  // ---- The collection and the handlers ----

  /** An uploaded photo: its file name and its size in bytes. */
  datatype Upload = Upload(filename: string, size: nat)

  /** `foto_url` of a created record. */
  function PhotoUrl(foto: Option<Upload>): (u: Option<string>)
    ensures u.Some? <==> foto.Some?
    ensures u.Some? ==> u.value == "/uploads/" + foto.value.filename
  {
    if foto.Some? then Some("/uploads/" + foto.value.filename) else None
  }

  /** A document of the collection: the stored fields and `foto_url`. */
  datatype Stored = Stored(persona: Persona, fotoUrl: Option<string>)

  datatype LogKind = CREATE | UPDATE | DELETE

  /** The body of one post to the log service. */
  datatype LogPost = LogPost(tipo: LogKind, documento: string, detalles: string)

  /** What a handler answers. */
  datatype Reply =
    | Invalid(fields: seq<Field>)              // 422: one error object per failing field
    | Refused(status: nat, detail: string)     // an HTTPException
    | Record(id: string, persona: Persona, fotoUrl: Option<string>)
    | Removed(message: string)

  const PhotoTooBig := "La foto no debe superar los 2MB"
  const AlreadyExists := "Ya existe esa persona"
  const BadRequest: nat := 400
  const Removal := "Persona eliminada exitosamente"

  /** FastAPI's status for a request body that fails validation. */
  const UnprocessableStatus: nat := 422

  /** The 422 body as the pages receive it: a `detail` array with one object per failing field. */
  function InvalidBody<T>(fields: seq<Field>): Body<T>
  {
    Other(Some(Items(|fields|)))
  }

  /**
   * A body the service refuses reaches the `catch` of both form pages as
   * JavaScript prints the `detail` array: "[object Object]" once per failing
   * field, comma-separated, so the message names none of the fields.
   */
  lemma RefusalShownAsObjects(p: FormData, dateOk: bool, emailOk: bool, statusText: string,
                              d: FormData, verify: Response<PersonaJson>)
    requires Validate(p, dateOk, emailOk).Err?
    ensures var n := |FieldErrors(p, dateOk, emailOk)|;
      var write := Reply(UnprocessableStatus, statusText, InvalidBody<PersonaJson>(FieldErrors(p, dateOk, emailOk)));
      && n > 0
      && FormPage.Thrown(d, write, verify) == Some(DetailString(Items(n)))
      && UpdatePage.Thrown(write, verify) == Some(DetailString(Items(n)))
      && Split(DetailString(Items(n)), ',') == Repeat("[object Object]", n)
  {
    var n := |FieldErrors(p, dateOk, emailOk)|;
    var parts := Repeat("[object Object]", n);
    assert ',' !in "[object Object]";
    SplitJoin(parts, ',');
  }

  /** `{primer_nombre} {apellidos}`, the name in a log event's details. */
  function FullName(q: Persona): string { q.primerNombre + " " + q.apellidos }

  /** `read_persona` over a given collection. */
  function ReadFrom(col: map<string, Stored>, numero: string): (r: Reply)
    ensures r.Record? <==> numero in col
    ensures r.Record? ==> r.id == numero && Stored(r.persona, r.fotoUrl) == col[numero]
    ensures !r.Record? ==> r == Refused(NotFoundStatus, NotFoundText)
  {
    if numero in col then Record(numero, col[numero].persona, col[numero].fotoUrl)
    else Refused(NotFoundStatus, NotFoundText)
  }

  class PersonaStore {
    /** The `personas` collection, keyed by document number. */
    var col: map<string, Stored>
    /** Every event posted to the log service, in order. */
    var posted: seq<LogPost>

    constructor (col: map<string, Stored>)
      ensures this.col == col && posted == []
    {
      this.col := col;
      posted := [];
    }

    /**
     * `create_persona`: the body is validated first; then an oversized photo
     * is refused, then an existing document number; otherwise the record is
     * stored under its document number and one CREATE event is posted.
     */
    method Create(p: FormData, dateOk: bool, emailOk: bool, foto: Option<Upload>) returns (r: Reply)
      modifies this
      ensures Validate(p, dateOk, emailOk).Err? ==>
        r == Invalid(FieldErrors(p, dateOk, emailOk)) && col == old(col) && posted == old(posted)
      ensures Validate(p, dateOk, emailOk).Ok? && foto.Some? && foto.value.size > MaxPhotoBytes ==>
        r == Refused(BadRequest, PhotoTooBig) && col == old(col) && posted == old(posted)
      ensures Validate(p, dateOk, emailOk).Ok? && !(foto.Some? && foto.value.size > MaxPhotoBytes)
              && p.numeroDocumento in old(col) ==>
        r == Refused(BadRequest, AlreadyExists) && col == old(col) && posted == old(posted)
      ensures Validate(p, dateOk, emailOk).Ok? && !(foto.Some? && foto.value.size > MaxPhotoBytes)
              && p.numeroDocumento !in old(col) ==>
        var q := Validate(p, dateOk, emailOk).value;
        col == old(col)[p.numeroDocumento := Stored(q, PhotoUrl(foto))]
        && posted == old(posted) + [LogPost(CREATE, p.numeroDocumento, "Creación de persona: " + FullName(q))]
        && r == Record(p.numeroDocumento, q, PhotoUrl(foto))
    {
      var v := Validate(p, dateOk, emailOk);
      if v.Err? {
        return Invalid(v.error);
      }
      var persona := v.value;
      var fotoUrl: Option<string> := None;
      if foto.Some? {
        if foto.value.size > MaxPhotoBytes {
          return Refused(BadRequest, PhotoTooBig);
        }
        fotoUrl := Some("/uploads/" + foto.value.filename);
      }
      if persona.numeroDocumento in col {
        return Refused(BadRequest, AlreadyExists);
      }
      col := col[persona.numeroDocumento := Stored(persona, fotoUrl)];
      posted := posted + [LogPost(CREATE, persona.numeroDocumento, "Creación de persona: " + FullName(persona))];
      r := Record(persona.numeroDocumento, persona, fotoUrl);
    }

    /** `read_persona`: the stored fields with `id` set to the key, or 404. */
    function Read(numero: string): (r: Reply)
      reads this
      ensures r.Record? <==> numero in col
      ensures r.Record? ==> r.id == numero && Stored(r.persona, r.fotoUrl) == col[numero]
      ensures !r.Record? ==> r == Refused(NotFoundStatus, NotFoundText)
    {
      ReadFrom(col, numero)
    }

    /**
     * `update_persona`: the body is validated first; a missing key is 404;
     * otherwise the body's fields replace the record under the path's key,
     * `foto_url` stays, and one UPDATE event is posted.
     */
    method Update(numero: string, p: FormData, dateOk: bool, emailOk: bool) returns (r: Reply)
      modifies this
      ensures Validate(p, dateOk, emailOk).Err? ==>
        r == Invalid(FieldErrors(p, dateOk, emailOk)) && col == old(col) && posted == old(posted)
      ensures Validate(p, dateOk, emailOk).Ok? && numero !in old(col) ==>
        r == Refused(NotFoundStatus, NotFoundText) && col == old(col) && posted == old(posted)
      ensures Validate(p, dateOk, emailOk).Ok? && numero in old(col) ==>
        var q := Validate(p, dateOk, emailOk).value;
        col == old(col)[numero := Stored(q, old(col)[numero].fotoUrl)]
        && posted == old(posted) + [LogPost(UPDATE, numero, "Actualización de persona: " + FullName(q))]
        && r == Record(numero, q, None)
    {
      var v := Validate(p, dateOk, emailOk);
      if v.Err? {
        return Invalid(v.error);
      }
      if numero !in col {
        return Refused(NotFoundStatus, NotFoundText);
      }
      var persona := v.value;
      col := col[numero := Stored(persona, col[numero].fotoUrl)];
      posted := posted + [LogPost(UPDATE, numero, "Actualización de persona: " + FullName(persona))];
      r := Record(numero, persona, None);
    }

    /**
     * `delete_persona`: a missing key is 404; otherwise the DELETE event,
     * naming the stored record, is posted and then the key is removed.
     */
    method Delete(numero: string) returns (r: Reply)
      modifies this
      ensures numero !in old(col) ==>
        r == Refused(NotFoundStatus, NotFoundText) && col == old(col) && posted == old(posted)
      ensures numero in old(col) ==>
        col == old(col) - {numero}
        && posted == old(posted) + [LogPost(LogKind.DELETE, numero, "Eliminación de persona: " + FullName(old(col)[numero].persona))]
        && r == Removed(Removal)
    {
      if numero !in col {
        return Refused(NotFoundStatus, NotFoundText);
      }
      var data := col[numero].persona;
      posted := posted + [LogPost(LogKind.DELETE, numero, "Eliminación de persona: " + FullName(data))];
      col := col - {numero};
      r := Removed(Removal);
    }
  }

  /** After a write to a key, reading it gives what was written, and every other key reads as before. */
  lemma ReadAfterWrite(col: map<string, Stored>, numero: string, s: Stored, other: string)
    requires other != numero
    ensures ReadFrom(col[numero := s], numero) == Record(numero, s.persona, s.fotoUrl)
    ensures ReadFrom(col[numero := s], other) == ReadFrom(col, other)
  {
  }

  /** After a delete the key reads as missing, and every other key reads as before. */
  lemma ReadAfterDelete(col: map<string, Stored>, numero: string, other: string)
    requires other != numero
    ensures ReadFrom(col - {numero}, numero) == Refused(NotFoundStatus, NotFoundText)
    ensures ReadFrom(col - {numero}, other) == ReadFrom(col, other)
  {
  }

  /**
   * The pages' rules are stricter than the service's on every string field
   * they share: a form the pages accept passes the service's document-number,
   * name, last-name and phone validators.
   */
  lemma PageRulesImplyServiceValidators(d: FormData, photo: Option<nat>)
    requires Violations(d, photo) == []
    ensures DocumentNumberValid(d.numeroDocumento) && NameValid(d.primerNombre)
    ensures MiddleNameValid(d.segundoNombre) && LastNamesValid(d.apellidos) && PhoneValid(d.celular)
  {
    ViolationsFacts(d, photo);
    assert !Violated(DocumentNumber, d, photo) && !Violated(FirstName, d, photo);
    assert !Violated(MiddleName, d, photo) && !Violated(LastNames, d, photo) && !Violated(Phone, d, photo);
  }

  /** The converse fails: the service accepts an empty first name and empty last names, the pages do not. */
  lemma ServiceAcceptsEmptyNames(d: FormData, photo: Option<nat>)
    requires d.primerNombre == "" && d.apellidos == ""
    ensures NameValid(d.primerNombre) && LastNamesValid(d.apellidos)
    ensures Violated(FirstName, d, photo) && Violated(LastNames, d, photo)
  {
  }

  /** The codes the pages' selects offer for the document type and the gender. */
  const DocTypeCodes: seq<string> := ["CC", "TI"]
  const GenderCodes: seq<string> := ["M", "F", "NB", "NR"]

  /**
   * The pages send their select codes unchanged and the service only knows
   * its own vocabulary: a body carrying a page's codes is refused, with both
   * the document type and the gender among the failing fields.
   */
  lemma SelectCodesRejected(p: FormData, dateOk: bool, emailOk: bool)
    requires p.tipoDocumento in DocTypeCodes && p.genero in GenderCodes
    ensures Validate(p, dateOk, emailOk).Err?
    ensures TipoDocumento in Validate(p, dateOk, emailOk).error && Genero in Validate(p, dateOk, emailOk).error
  {
    assert ParseDocumentType(p.tipoDocumento).None?;
    assert ParseGender(p.genero).None?;
    assert Fails(TipoDocumento, Checks(p, dateOk, emailOk));
  }
}
