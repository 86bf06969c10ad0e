/**
 * The update page (frontend/app/update.js). It reads the `doc` URL
 * parameter, loads that record and prefills the form, and only then accepts
 * submits: each submit validates with the same rules as the create / edit
 * page, writes the record back with PUT on the URL's document and checks that
 * the record can still be read. Messages are alerts; leaving the page is an
 * immediate navigation to the index.
 */
module UpdatePage {
  import opened Base
  import opened Strings
  import opened Http
  import opened PersonaRules

  /** A request as it left the page, with the `persona` part and photo size of a write. */
  datatype Outgoing = Outgoing(request: Request, persona: Option<FormData>, photo: Option<nat>)

  const MissingDocument := "No se proporcionó número de documento"
  const ConsultPrefix := "Error al consultar: "
  const UpdatePrefix := "Error al actualizar la persona: "
  const VerifyFailure := "Error al verificar la actualización de datos"
  const UpdatedText := "Persona actualizada exitosamente"

  /** `!numeroDocumento` is false: the parameter is present and non-empty. */
  predicate HasDocument(doc: Option<string>) { doc.Some? && doc.value != "" }

  /**
   * The message the load's outer `catch` receives: the status errors thrown
   * by the page, or the rejection of `fetch` or of the body parse; none when a
   * body arrived.
   */
  function LoadError(resp: Response<PersonaJson>): (e: Option<string>)
    ensures e.None? <==> resp.Reply? && IsOk(resp.status) && !resp.body.Unparseable?
    ensures resp.Reply? && resp.status == NotFoundStatus ==> e == Some(NotFoundText)
    ensures resp.Reply? && !IsOk(resp.status) && resp.status != NotFoundStatus ==> e == Some(StatusText(ConsultPrefix, resp.status))
    ensures resp.Failed? ==> e == Some(resp.reason)
  {
    match resp
    case Failed(reason) => Some(reason)
    case Reply(status, _, body) =>
      if !IsOk(status) then
        if status == NotFoundStatus then Some(NotFoundText) else Some(StatusText(ConsultPrefix, status))
      else if body.Unparseable? then Some(body.reason)
      else None
  }

  /** The write was accepted: a parsed body with a 2xx status. */
  predicate WriteAccepted<T>(write: Response<T>)
  {
    write.Reply? && !write.body.Unparseable? && IsOk(write.status)
  }

  /**
   * The message the submit's `catch` receives once the write has left; none
   * when the record was updated. Only the read-back's status is looked at.
   */
  function Thrown(write: Response<PersonaJson>, verify: Response<PersonaJson>): Option<string>
  {
    match write
    case Failed(reason) => Some(reason)
    case Reply(status, _, body) =>
      if body.Unparseable? then Some(body.reason)
      else if !IsOk(status) then Some(DetailOr(body, StatusText("Error ", status)))
      else match verify
        case Failed(reason) => Some(reason)
        case Reply(verifyStatus, _, _) => if !IsOk(verifyStatus) then Some(VerifyFailure) else None
  }

  /** How a submit ends: validation errors, a caught exception's message, or updated. */
  datatype Outcome = Rejected(errs: seq<Rule>) | Threw(reason: string) | Updated

  /** The outcome of submitting `d` (and the photo's size), given the write and read-back responses. */
  function UpdateOutcome(d: FormData, photo: Option<nat>, write: Response<PersonaJson>, verify: Response<PersonaJson>): (o: Outcome)
    ensures o.Rejected? <==> Violations(d, photo) != []
    ensures o.Rejected? ==> o.errs == Violations(d, photo)
    ensures o.Updated? <==> Violations(d, photo) == [] && WriteAccepted(write) && verify.Reply? && IsOk(verify.status)
    ensures Violations(d, photo) == [] && write.Reply? && write.body.Unparseable? ==> o == Threw(write.body.reason)
    ensures Violations(d, photo) == [] && write.Reply? && !IsOk(write.status) && write.body.Other?
            && write.body.detail.Some? && write.body.detail.value.Text? && write.body.detail.value.text != ""
            ==> o == Threw(write.body.detail.value.text)
    ensures Violations(d, photo) == [] && write.Reply? && !IsOk(write.status) && write.body.Other?
            && write.body.detail.Some? && write.body.detail.value.Items?
            ==> o == Threw(DetailString(write.body.detail.value))
    ensures Violations(d, photo) == [] && write.Reply? && !IsOk(write.status) && !write.body.Unparseable?
            && !(write.body.Other? && write.body.detail.Some? && write.body.detail.value != Text(""))
            ==> o == Threw(StatusText("Error ", write.status))
    ensures Violations(d, photo) == [] && write.Failed? ==> o == Threw(write.reason)
    ensures Violations(d, photo) == [] && WriteAccepted(write) && verify.Failed? ==> o == Threw(verify.reason)
    ensures Violations(d, photo) == [] && WriteAccepted(write) && verify.Reply? && !IsOk(verify.status)
            ==> o == Threw(VerifyFailure)
  {
    Resolve(Violations(d, photo), Thrown(write, verify))
  }

  /** The outcome once the error list and the caught message, if any, are known. */
  function Resolve(errs: seq<Rule>, thrown: Option<string>): Outcome
  {
    if errs != [] then Rejected(errs)
    else if thrown.Some? then Threw(thrown.value)
    else Updated
  }

  /** The requests a submit sends: the write and, once it is accepted, the read-back, both on the URL's document. */
  function UpdateTrace(doc: string, d: FormData, photo: Option<nat>, write: Response<PersonaJson>): (r: seq<Outgoing>)
    ensures r == [] <==> Violations(d, photo) != []
    ensures forall k :: 0 <= k < |r| ==> r[k].request.path == PersonaPath(doc)
    ensures r != [] ==> r[0] == Outgoing(Request(PUT, PersonaPath(doc)), Some(d), photo)
    ensures |r| <= 2
    ensures |r| == 2 <==> Violations(d, photo) == [] && WriteAccepted(write)
    ensures |r| == 2 ==> r[1] == Outgoing(Request(GET, PersonaPath(doc)), None, None)
  {
    if Violations(d, photo) != [] then [] else Exchanges(doc, d, photo, write)
  }

  /** The requests sent once the form is valid: the PUT, and the read-back once the write is accepted. */
  function Exchanges(doc: string, d: FormData, photo: Option<nat>, write: Response<PersonaJson>): seq<Outgoing>
  {
    [Outgoing(Request(PUT, PersonaPath(doc)), Some(d), photo)]
    + if WriteAccepted(write) then [Outgoing(Request(GET, PersonaPath(doc)), None, None)] else []
  }

  /** The alert a submit ends with. */
  function UpdateAlert(o: Outcome): Announcement
  {
    match o
    case Rejected(errs) => RuleErrors(errs)
    case Threw(reason) => Plain(UpdatePrefix + reason)
    case Updated => Plain(UpdatedText)
  }

  class UpdateFormPage {
    /** The `doc` URL parameter. */
    const numeroDocumento: Option<string>
    /** The current values of the inputs. */
    var inputs: Inputs
    /** Every alert shown, in order. */
    var alerts: seq<Announcement>
    /** Every request sent, in order. */
    var sent: seq<Outgoing>
    /** Where the page has navigated to, if anywhere. */
    var location: Option<string>
    /** The submit listener has been attached. */
    var handlerInstalled: bool

    /** The listener is attached only on a page that has a document to update. */
    ghost predicate Valid()
      reads this
    {
      handlerInstalled ==> HasDocument(numeroDocumento)
    }

    constructor Open(numeroDocumento: Option<string>, inputs: Inputs)
      ensures Valid()
      ensures this.numeroDocumento == numeroDocumento && this.inputs == inputs
      ensures alerts == [] && sent == [] && location == None && !handlerInstalled
    {
      this.numeroDocumento := numeroDocumento;
      this.inputs := inputs;
      alerts := [];
      sent := [];
      location := None;
      handlerInstalled := false;
    }

    /**
     * The `DOMContentLoaded` listener: without a document, alert and leave;
     * otherwise load the record, and either prefill the form and attach the
     * submit listener, or alert the error and leave. A 2xx JSON object that
     * is not a record prefills every input from its missing members.
     */
    method Load(resp: Response<PersonaJson>)
      requires Valid()
      modifies this
      ensures Valid()
      ensures !HasDocument(numeroDocumento) ==>
        alerts == old(alerts) + [Plain(MissingDocument)] && location == Some(IndexPage)
        && sent == old(sent) && inputs == old(inputs) && handlerInstalled == old(handlerInstalled)
      ensures HasDocument(numeroDocumento) ==>
        sent == old(sent) + [Outgoing(Request(GET, PersonaPath(numeroDocumento.value)), None, None)]
      ensures HasDocument(numeroDocumento) && LoadError(resp).Some? ==>
        alerts == old(alerts) + [Plain(LoadError(resp).value)] && location == Some(IndexPage)
        && inputs == old(inputs) && handlerInstalled == old(handlerInstalled)
      ensures HasDocument(numeroDocumento) && LoadError(resp).None? ==>
        alerts == old(alerts) && location == old(location) && handlerInstalled
        && inputs == PrefillOnUpdate(if resp.body.Payload? then resp.body.value else MissingRecord)
    {
      if !HasDocument(numeroDocumento) {
        alerts := alerts + [Plain(MissingDocument)];
        location := Some(IndexPage);
        return;
      }
      sent := sent + [Outgoing(Request(GET, PersonaPath(numeroDocumento.value)), None, None)];
      var thrown: Option<string> := None;
      match resp {
        case Failed(reason) =>
          thrown := Some(reason);
        case Reply(status, _, body) =>
          if !IsOk(status) {
            if status == NotFoundStatus {
              thrown := Some(NotFoundText);
            } else {
              thrown := Some(StatusText(ConsultPrefix, status));
            }
          } else {
            match body {
              case Unparseable(reason) =>
                thrown := Some(reason);
              case Payload(p) =>
                var generoValue := GenderCodeOnUpdate(p.genero);
                inputs := Inputs(DocTypeCode(p.tipoDocumento), p.numeroDocumento, p.primerNombre,
                                 if p.segundoNombre.Some? then p.segundoNombre.value else "",
                                 p.apellidos, p.fechaNacimiento, generoValue, p.email, p.celular);
                handlerInstalled := true;
              case Other(_) =>
                // Every member of a JSON object that is not a record reads as `undefined`.
                var generoValue := GenderCodeOnUpdate(MissingRecord.genero);
                inputs := Inputs(DocTypeCode(MissingRecord.tipoDocumento), MissingRecord.numeroDocumento,
                                 MissingRecord.primerNombre, "", MissingRecord.apellidos,
                                 MissingRecord.fechaNacimiento, generoValue, MissingRecord.email, MissingRecord.celular);
                handlerInstalled := true;
            }
          }
      }
      if thrown.Some? {
        alerts := alerts + [Plain(thrown.value)];
        location := Some(IndexPage);
      }
    }

    /**
     * The submit listener: validate into a fresh error list; on errors alert
     * them; otherwise write, read back, and alert the outcome, leaving for
     * the index once the record is updated.
     */
    method Submit(photo: Option<nat>, write: Response<PersonaJson>, verify: Response<PersonaJson>)
      returns (errores: seq<Rule>)
      requires Valid() && handlerInstalled
      modifies this`alerts, this`sent, this`location
      ensures errores == Violations(ReadForm(inputs), photo)
      ensures sent == old(sent) + if errores == [] then Exchanges(numeroDocumento.value, ReadForm(inputs), photo, write) else []
      ensures alerts == old(alerts) + [UpdateAlert(Resolve(errores, Thrown(write, verify)))]
      ensures location == if Resolve(errores, Thrown(write, verify)).Updated? then Some(IndexPage) else old(location)
    {
      var formData := ReadForm(inputs);
      errores := CollectErrors(formData, photo);
      if |errores| > 0 {
        Report(Rejected(errores));
        return;
      }
      var thrown := Exchange(formData, photo, write, verify);
      Report(Resolve(errores, thrown));
    }

    /** Alert the outcome, and leave for the index once the record is updated. */
    method Report(outcome: Outcome)
      modifies this`alerts, this`location
      ensures alerts == old(alerts) + [UpdateAlert(outcome)]
      ensures location == if outcome.Updated? then Some(IndexPage) else old(location)
    {
      match outcome {
        case Rejected(errs) =>
          alerts := alerts + [RuleErrors(errs)];
        case Threw(reason) =>
          alerts := alerts + [Plain(UpdatePrefix + reason)];
        case Updated =>
          alerts := alerts + [Plain(UpdatedText)];
          location := Some(IndexPage);
      }
    }

    /** The submit's `try` block: the PUT, and the read-back once the write is accepted. */
    method Exchange(d: FormData, photo: Option<nat>, write: Response<PersonaJson>, verify: Response<PersonaJson>)
      returns (thrown: Option<string>)
      requires HasDocument(numeroDocumento)
      modifies this`sent
      ensures sent == old(sent) + Exchanges(numeroDocumento.value, d, photo, write)
      ensures thrown == Thrown(write, verify)
    {
      var url := PersonaPath(numeroDocumento.value);
      sent := sent + [Outgoing(Request(PUT, url), Some(d), photo)];
      match write {
        case Failed(reason) =>
          thrown := Some(reason);
        case Reply(status, _, body) =>
          if body.Unparseable? {
            thrown := Some(body.reason);
          } else if !IsOk(status) {
            thrown := Some(DetailOr(body, StatusText("Error ", status)));
          } else {
            sent := sent + [Outgoing(Request(GET, url), None, None)];
            match verify {
              case Failed(reason) =>
                thrown := Some(reason);
              case Reply(verifyStatus, _, _) =>
                thrown := if !IsOk(verifyStatus) then Some(VerifyFailure) else None;
            }
          }
      }
    }
  }

  /**
   * The read-back is only a status check: its body, parsed or not, never
   * changes the outcome.
   */
  lemma ReadBackBodyIgnored(d: FormData, photo: Option<nat>, write: Response<PersonaJson>,
                            status: nat, statusText: string, body: Body<PersonaJson>, other: Body<PersonaJson>)
    ensures UpdateOutcome(d, photo, write, Reply(status, statusText, body))
         == UpdateOutcome(d, photo, write, Reply(status, statusText, other))
  {
  }

  /**
   * Editing the document number on this page does not move the write: the
   * request goes to the URL's document, while the body carries the new
   * number.
   */
  lemma WriteStaysOnUrlDocument(doc: string, v: Inputs, photo: Option<nat>, write: Response<PersonaJson>)
    requires Violations(ReadForm(v), photo) == []
    ensures var t := UpdateTrace(doc, ReadForm(v), photo, write);
      t[0].request.path == PersonaPath(doc) && t[0].persona.value.numeroDocumento == v.doc
  {
  }

  /**
   * A rejected update lists exactly the broken rules, each once, in the
   * order of the fields.
   */
  lemma RejectionListsBrokenRules(d: FormData, photo: Option<nat>, write: Response<PersonaJson>, verify: Response<PersonaJson>)
    requires UpdateOutcome(d, photo, write, verify).Rejected?
    ensures forall r :: r in UpdateOutcome(d, photo, write, verify).errs <==> Violated(r, d, photo)
    ensures var errs := UpdateOutcome(d, photo, write, verify).errs;
      forall i, j :: 0 <= i < j < |errs| ==> Rank(errs[i]) < Rank(errs[j])
  {
    ViolationsFacts(d, photo);
  }
}
