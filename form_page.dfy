/**
 * The create / edit page (frontend/app/form.js). A `doc` URL parameter puts
 * the page in edit mode: the document fields are locked, the record is loaded
 * and written back with PUT; without it the page creates a record with POST.
 * A submit locks every control, validates, writes, reads the record back once
 * and reports the outcome; every failure unlocks the controls again.
 */
module FormPage {
  import opened Base
  import opened Strings
  import opened Http
  import opened PersonaRules

  /**
   * The form's controls, in document order: the document-type select, the
   * document number, the names, the birth date, the gender select, e-mail,
   * phone, the photo input and the submit button.
   */
  const ControlCount := 11
  const DocTipoControl := 0
  const DocControl := 1
  const ButtonControl := 10

  /** A message box: an error (red, removed later) or a success note (green, followed by a redirect). */
  datatype Notice = Notice(what: Announcement, isError: bool)

  /**
   * A request as it left the page: the request, the `persona` part and the
   * photo size it carried (for the write), and the submit button's state.
   */
  datatype Outgoing = Outgoing(request: Request, persona: Option<FormData>, photo: Option<nat>, trigger: Control)

  /** `!!docToEdit`: the URL parameter is present and non-empty. */
  predicate IsEditing(docToEdit: Option<string>) { docToEdit.Some? && docToEdit.value != "" }

  /** The write a submit makes: PUT on the edited record, or POST on the collection. */
  function WriteRequest(docToEdit: Option<string>): (r: Request)
    ensures r.verb == PUT <==> IsEditing(docToEdit)
    ensures r.verb == POST <==> !IsEditing(docToEdit)
    ensures IsEditing(docToEdit) ==> r.path == PersonaPath(docToEdit.value)
    ensures !IsEditing(docToEdit) ==> r.path == PersonasPath
  {
    if IsEditing(docToEdit) then Request(PUT, PersonaPath(docToEdit.value)) else Request(POST, PersonasPath)
  }

  /** The submit button while a submit is in flight. */
  const Locked := Control(true, "Enviando...")

  const FailurePrefix := "Error al registrar la persona: "
  const ParseFailure := "Error al procesar la respuesta del servidor"
  const VerifyFailure := "Error al verificar el guardado de datos"
  const SavedText := "Los datos se han guardado correctamente en la base de datos"

  /** How a submit ends: validation errors, a caught exception with its message, or saved. */
  datatype Outcome = Rejected(errs: seq<Rule>) | Threw(reason: string) | Saved

  /** The write succeeded: a response with a 2xx status whose body parsed. */
  predicate WriteAccepted<T>(write: Response<T>)
  {
    write.Reply? && !write.body.Unparseable? && IsOk(write.status)
  }

  /**
   * The message the `catch` block receives once the write of `d` has left,
   * given the write and read-back responses; none when the record is saved.
   * The write's body is parsed before its status is looked at.
   */
  function Thrown(d: FormData, write: Response<PersonaJson>, verify: Response<PersonaJson>): Option<string>
  {
    match write
    case Failed(reason) => Some(reason)
    case Reply(status, statusText, body) =>
      if body.Unparseable? then Some(ParseFailure)
      else if !IsOk(status) then Some(DetailOr(body, "Error " + NatToString(status) + ": " + statusText))
      else match verify
        case Failed(reason) => Some(reason)
        case Reply(verifyStatus, _, verifyBody) =>
          if !IsOk(verifyStatus) then Some(VerifyFailure)
          else if verifyBody.Unparseable? then Some(verifyBody.reason)
          else None
  }

  /** The outcome of a submit of `d` (and the photo's size), given the write and read-back responses. */
  function SubmitOutcome(d: FormData, photo: Option<nat>, write: Response<PersonaJson>, verify: Response<PersonaJson>): (o: Outcome)
    ensures o.Rejected? <==> Violations(d, photo) != []
    ensures o.Rejected? ==> o.errs == Violations(d, photo)
    ensures o.Saved? <==> Violations(d, photo) == [] && WriteAccepted(write)
                          && verify.Reply? && IsOk(verify.status) && !verify.body.Unparseable?
    ensures Violations(d, photo) == [] && write.Reply? && write.body.Unparseable? ==> o == Threw(ParseFailure)
    ensures Violations(d, photo) == [] && write.Reply? && !IsOk(write.status) && write.body.Other?
            && write.body.detail.Some? && write.body.detail.value.Text? && write.body.detail.value.text != ""
            ==> o == Threw(write.body.detail.value.text)
    ensures Violations(d, photo) == [] && write.Reply? && !IsOk(write.status) && write.body.Other?
            && write.body.detail.Some? && write.body.detail.value.Items?
            ==> o == Threw(DetailString(write.body.detail.value))
    ensures Violations(d, photo) == [] && write.Reply? && !IsOk(write.status) && !write.body.Unparseable?
            && !(write.body.Other? && write.body.detail.Some? && write.body.detail.value != Text(""))
            ==> o == Threw("Error " + NatToString(write.status) + ": " + write.statusText)
    ensures Violations(d, photo) == [] && write.Failed? ==> o == Threw(write.reason)
    ensures Violations(d, photo) == [] && WriteAccepted(write) && verify.Failed? ==> o == Threw(verify.reason)
    ensures Violations(d, photo) == [] && WriteAccepted(write) && verify.Reply? && !IsOk(verify.status)
            ==> o == Threw(VerifyFailure)
    ensures Violations(d, photo) == [] && WriteAccepted(write) && verify.Reply? && IsOk(verify.status)
            && verify.body.Unparseable?
            ==> o == Threw(verify.body.reason)
  {
    Resolve(Violations(d, photo), Thrown(d, write, verify))
  }

  /** The outcome once the error list and the caught message, if any, are known. */
  function Resolve(errs: seq<Rule>, thrown: Option<string>): Outcome
  {
    if errs != [] then Rejected(errs)
    else if thrown.Some? then Threw(thrown.value)
    else Saved
  }

  /** The requests sent once the form is valid: the write, and the read-back when the write was accepted. */
  function Exchanges(docToEdit: Option<string>, d: FormData, photo: Option<nat>, write: Response<PersonaJson>): seq<Outgoing>
  {
    [Outgoing(WriteRequest(docToEdit), Some(d), photo, Locked)]
    + if WriteAccepted(write) then [Outgoing(Request(GET, PersonaPath(d.numeroDocumento)), None, None, Locked)] else []
  }

  /** The requests a submit sends, all while the controls are locked. */
  function SubmitTrace(docToEdit: Option<string>, d: FormData, photo: Option<nat>, write: Response<PersonaJson>): (r: seq<Outgoing>)
    ensures r == [] <==> Violations(d, photo) != []
    ensures forall k :: 0 <= k < |r| ==> r[k].trigger == Locked
    ensures r != [] ==> r[0].request == WriteRequest(docToEdit) && r[0].persona == Some(d) && r[0].photo == photo
    ensures |r| <= 2
    ensures |r| == 2 <==> Violations(d, photo) == [] && WriteAccepted(write)
    ensures |r| == 2 ==> r[1].request == Request(GET, PersonaPath(d.numeroDocumento)) && r[1].persona == None
  {
    if Violations(d, photo) != [] then [] else Exchanges(docToEdit, d, photo, write)
  }

  /** The message box a submit ends with. */
  function SubmitNotice(o: Outcome): Notice
  {
    match o
    case Rejected(errs) => Notice(RuleErrors(errs), true)
    case Threw(reason) => Notice(Plain(FailurePrefix + reason), true)
    case Saved => Notice(Plain(SavedText), false)
  }

  const NotFoundForEdit := "Error: Persona no encontrada para modificar."
  const LoadFailure := "Error al cargar los datos para modificación."
  const LoadNetworkFailure := "Error de red al cargar datos para modificación."

  /**
   * The message box of the edit-mode load: a 404, another status, or a
   * rejected fetch or body parse. A loaded record shows none.
   */
  function LoadNotices(resp: Response<PersonaJson>): seq<Notice>
  {
    match resp
    case Failed(_) => [Notice(Plain(LoadNetworkFailure), true)]
    case Reply(status, _, body) =>
      if !IsOk(status) then [Notice(Plain(if status == NotFoundStatus then NotFoundForEdit else LoadFailure), true)]
      else if body.Unparseable? then [Notice(Plain(LoadNetworkFailure), true)]
      else []
  }

  /**
   * The load ends by enabling the form, except when a 2xx body is a JSON
   * object that is not a record, which makes the fill step throw first.
   */
  predicate LoadUnlocks(resp: Response<PersonaJson>)
  {
    !(resp.Reply? && IsOk(resp.status) && resp.body.Other?)
  }

  class PersonaFormPage {
    /** The `doc` URL parameter. */
    const docToEdit: Option<string>
    /** The `disabled` flag of each control. */
    const disabled: array<bool>
    /** The submit button's label. */
    var buttonText: string
    /** The current values of the inputs. */
    var inputs: Inputs
    /** The shared error list, cleared at each submit. */
    var errores: seq<Rule>
    /** Every request the page has sent, in order. */
    var sent: seq<Outgoing>
    /** Every message box the page has shown, in order. */
    var shown: seq<Notice>
    /** A redirect to the index page has been scheduled. */
    var redirectScheduled: bool

    ghost predicate Valid()
      reads this
    {
      disabled.Length == ControlCount
    }

    /** The button as it is now. */
    function Button(): Control
      requires Valid()
      reads this, disabled
    {
      Control(disabled[ButtonControl], buttonText)
    }

    /**
     * The page as it is set up on load: every control enabled, and in edit
     * mode the document fields locked and the button relabelled.
     */
    constructor Open(docToEdit: Option<string>, inputs: Inputs, buttonText: string)
      ensures Valid() && fresh(disabled)
      ensures this.docToEdit == docToEdit && this.inputs == inputs
      ensures errores == [] && sent == [] && shown == [] && !redirectScheduled
      ensures forall i :: 0 <= i < ControlCount ==>
        disabled[i] == (IsEditing(docToEdit) && (i == DocTipoControl || i == DocControl))
      ensures this.buttonText == if IsEditing(docToEdit) then "Actualizar Datos" else buttonText
    {
      this.docToEdit := docToEdit;
      this.inputs := inputs;
      this.buttonText := buttonText;
      disabled := new bool[ControlCount](_ => false);
      errores := [];
      sent := [];
      shown := [];
      redirectScheduled := false;
      new;
      if IsEditing(docToEdit) {
        disabled[DocControl] := true;
        disabled[DocTipoControl] := true;
        this.buttonText := "Actualizar Datos";
      }
    }

    /** `setFormEnabled`: every control's `disabled` becomes `!enabled`, and the button is relabelled. */
    method SetFormEnabled(enabled: bool)
      requires Valid()
      modifies this`buttonText, disabled
      ensures forall i :: 0 <= i < disabled.Length ==> disabled[i] == !enabled
      ensures buttonText == if enabled then "Enviar" else "Enviando..."
    {
      var i := 0;
      while i < disabled.Length
        invariant 0 <= i <= disabled.Length
        invariant forall j :: 0 <= j < i ==> disabled[j] == !enabled
      {
        disabled[i] := !enabled;
        i := i + 1;
      }
      buttonText := if enabled then "Enviar" else "Enviando...";
    }

    /**
     * Edit mode's `loadPersonaData` followed by `fillForm`: one GET of the
     * record, a message on failure, the inputs filled on success, and the
     * whole form enabled at the end (the locked document fields included). A
     * 2xx JSON object that is not a record is filled in part, up to the birth
     * date, and the form stays as it was.
     */
    method LoadPersonaData(resp: Response<PersonaJson>)
      requires Valid() && IsEditing(docToEdit)
      modifies this, disabled
      ensures Valid()
      ensures sent == old(sent) + [Outgoing(Request(GET, PersonaPath(docToEdit.value)), None, None, old(Button()))]
      ensures shown == old(shown) + LoadNotices(resp)
      ensures inputs == if resp.Reply? && IsOk(resp.status) && resp.body.Payload? then PrefillOnForm(resp.body.value)
                        else if !LoadUnlocks(resp) then PartialFillOnForm(old(inputs))
                        else old(inputs)
      ensures LoadUnlocks(resp) ==> (forall i :: 0 <= i < disabled.Length ==> !disabled[i]) && buttonText == "Enviar"
      ensures !LoadUnlocks(resp) ==> unchanged(disabled) && buttonText == old(buttonText)
      ensures errores == old(errores) && redirectScheduled == old(redirectScheduled)
    {
      sent := sent + [Outgoing(Request(GET, PersonaPath(docToEdit.value)), None, None, Button())];
      match resp {
        case Failed(_) =>
          shown := shown + [Notice(Plain(LoadNetworkFailure), true)];
          SetFormEnabled(true);
        case Reply(status, _, body) =>
          if !IsOk(status) {
            if status == NotFoundStatus {
              shown := shown + [Notice(Plain(NotFoundForEdit), true)];
            } else {
              shown := shown + [Notice(Plain(LoadFailure), true)];
            }
            SetFormEnabled(true);
          } else {
            match body {
              case Unparseable(_) =>
                shown := shown + [Notice(Plain(LoadNetworkFailure), true)];
                SetFormEnabled(true);
              case Payload(p) =>
                inputs := PrefillOnForm(p);
                SetFormEnabled(true);
              case Other(_) =>
                inputs := PartialFillOnForm(inputs);
            }
          }
      }
    }

    /**
     * The submit listener: clear the errors, lock the form, validate, then
     * write, read back once and report; every failure unlocks the form, a
     * success leaves it locked and schedules the redirect.
     */
    method Submit(photo: Option<nat>, write: Response<PersonaJson>, verify: Response<PersonaJson>)
      requires Valid()
      modifies this, disabled
      ensures Valid() && inputs == old(inputs)
      ensures errores == Violations(ReadForm(inputs), photo)
      ensures sent == old(sent) + if errores == [] then Exchanges(docToEdit, ReadForm(inputs), photo, write) else []
      ensures shown == old(shown) + [SubmitNotice(Resolve(errores, Thrown(ReadForm(inputs), write, verify)))]
      ensures forall i :: 0 <= i < disabled.Length ==>
        disabled[i] == Resolve(errores, Thrown(ReadForm(inputs), write, verify)).Saved?
      ensures buttonText == if Resolve(errores, Thrown(ReadForm(inputs), write, verify)).Saved? then "Enviando..." else "Enviar"
      ensures redirectScheduled == (old(redirectScheduled) || Resolve(errores, Thrown(ReadForm(inputs), write, verify)).Saved?)
    {
      Validate(photo);
      if |errores| > 0 {
        Report(Rejected(errores));
        return;
      }
      var thrown := Exchange(ReadForm(inputs), photo, write, verify);
      Report(Resolve(errores, thrown));
    }

    /** Clear the shared error list, lock the form and collect the rule violations of the inputs. */
    method Validate(photo: Option<nat>)
      requires Valid()
      modifies this`errores, this`buttonText, disabled
      ensures errores == Violations(ReadForm(inputs), photo)
      ensures forall i :: 0 <= i < disabled.Length ==> disabled[i]
      ensures buttonText == Locked.text
    {
      errores := [];
      SetFormEnabled(false);
      var found := CollectErrors(ReadForm(inputs), photo);
      errores := errores + found;
    }

    /** Show the outcome's message box; unlock the form on failure, schedule the redirect on success. */
    method Report(outcome: Outcome)
      requires Valid()
      modifies this`shown, this`buttonText, this`redirectScheduled, disabled
      ensures shown == old(shown) + [SubmitNotice(outcome)]
      ensures forall i :: 0 <= i < disabled.Length ==> disabled[i] == (outcome.Saved? && old(disabled[i]))
      ensures buttonText == if outcome.Saved? then old(buttonText) else "Enviar"
      ensures redirectScheduled == (old(redirectScheduled) || outcome.Saved?)
    {
      match outcome {
        case Rejected(errs) =>
          shown := shown + [Notice(RuleErrors(errs), true)];
          SetFormEnabled(true);
        case Threw(reason) =>
          shown := shown + [Notice(Plain(FailurePrefix + reason), true)];
          SetFormEnabled(true);
        case Saved =>
          shown := shown + [Notice(Plain(SavedText), false)];
          redirectScheduled := true;
      }
    }

    /**
     * The `try` block after validation: the write, and the read-back when the
     * write was accepted, both sent while the form is locked; returns what
     * the `catch` block receives.
     */
    method Exchange(d: FormData, photo: Option<nat>, write: Response<PersonaJson>, verify: Response<PersonaJson>)
      returns (thrown: Option<string>)
      requires Valid() && Button() == Locked
      modifies this`sent
      ensures sent == old(sent) + Exchanges(docToEdit, d, photo, write)
      ensures thrown == Thrown(d, write, verify)
    {
      sent := sent + [Outgoing(WriteRequest(docToEdit), Some(d), photo, Button())];
      match write {
        case Failed(reason) =>
          thrown := Some(reason);
        case Reply(status, statusText, body) =>
          if body.Unparseable? {
            thrown := Some(ParseFailure);
          } else if !IsOk(status) {
            thrown := Some(DetailOr(body, "Error " + NatToString(status) + ": " + statusText));
          } else {
            sent := sent + [Outgoing(Request(GET, PersonaPath(d.numeroDocumento)), None, None, Button())];
            match verify {
              case Failed(reason) =>
                thrown := Some(reason);
              case Reply(verifyStatus, _, verifyBody) =>
                if !IsOk(verifyStatus) {
                  thrown := Some(VerifyFailure);
                } else if verifyBody.Unparseable? {
                  thrown := Some(verifyBody.reason);
                } else {
                  thrown := None;
                }
            }
          }
      }
    }
  }

  /**
   * A rejected submit lists exactly the rules the form breaks, each once, in
   * the order of the form's fields.
   */
  lemma RejectionListsBrokenRules(d: FormData, photo: Option<nat>, write: Response<PersonaJson>, verify: Response<PersonaJson>)
    requires SubmitOutcome(d, photo, write, verify).Rejected?
    ensures forall r :: r in SubmitOutcome(d, photo, write, verify).errs <==> Violated(r, d, photo)
    ensures var errs := SubmitOutcome(d, photo, write, verify).errs;
      forall i, j :: 0 <= i < j < |errs| ==> Rank(errs[i]) < Rank(errs[j])
  {
    ViolationsFacts(d, photo);
  }

  /** The read-back response matters only once the write has been accepted. */
  lemma ReadBackOnlyAfterAcceptedWrite(d: FormData, photo: Option<nat>, write: Response<PersonaJson>,
                                       verify: Response<PersonaJson>, other: Response<PersonaJson>)
    requires !WriteAccepted(write)
    ensures SubmitOutcome(d, photo, write, verify) == SubmitOutcome(d, photo, write, other)
    ensures !SubmitOutcome(d, photo, write, verify).Saved?
  {
  }

  /**
   * The page sends the inputs as typed: the document-type and gender codes
   * of its selects (`CC`, `M`, ...) go out unchanged, and a blank middle name
   * is sent as null.
   */
  lemma CodesSentAsTyped(docToEdit: Option<string>, v: Inputs, photo: Option<nat>, write: Response<PersonaJson>)
    requires Violations(ReadForm(v), photo) == []
    ensures var t := SubmitTrace(docToEdit, ReadForm(v), photo, write);
      t[0].persona.value.tipoDocumento == v.docTipo && t[0].persona.value.genero == v.genero
      && t[0].persona.value.numeroDocumento == v.doc
      && (t[0].persona.value.segundoNombre == None <==> v.segNombre == "")
  {
  }
}
