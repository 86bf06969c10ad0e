/**
 * The lookup page (frontend/app/consult.js): a document number is checked,
 * looked up with the button locked, and a found record opens the registration
 * form in edit mode; `eliminarPersona` deletes a record after confirmation.
 */
module ConsultPage {
  import opened Base
  import opened Http
  import opened Strings
  import PersonaRules

  const ConsultingLabel := "Consultando..."
  const ConsultPrefix := "Error al consultar: "
  const DeletePrefix := "Error al eliminar: "
  const DeletedText := "Persona eliminada exitosamente"

  /** The form page in edit mode, for a document number appended to this. */
  const EditLink := "form.html?doc="

  /** The button while the lookup is in flight. */
  const Consulting := Control(true, ConsultingLabel)

  /** How a lookup ends: an alert, or a navigation. */
  datatype LookupEnd = Alerted(message: string) | Navigated(url: string)

  /**
   * The end of a lookup that got past validation: a transport failure or an
   * unreadable body alerts its error, a 404 alerts "not found", any other
   * non-2xx alerts its status, and a record opens the edit form for the
   * document number the server returned (JSON without that member gives
   * `undefined` in the link).
   */
  function LookupOutcome(resp: Response<PersonaJson>): (e: LookupEnd)
    ensures resp.Failed? ==> e == Alerted(resp.reason)
    ensures resp.Reply? && IsOk(resp.status) && resp.body.Unparseable? ==> e == Alerted(resp.body.reason)
    ensures e.Navigated? <==> resp.Reply? && IsOk(resp.status) && !resp.body.Unparseable?
    ensures resp.Reply? && resp.status == NotFoundStatus ==> e == Alerted(NotFoundText)
    ensures resp.Reply? && !IsOk(resp.status) && resp.status != NotFoundStatus
            ==> e == Alerted(StatusText(ConsultPrefix, resp.status))
    ensures resp.Reply? && IsOk(resp.status) && resp.body.Payload?
            ==> e == Navigated(EditLink + resp.body.value.numeroDocumento)
  {
    match resp
    case Failed(reason) => Alerted(reason)
    case Reply(status, _, body) =>
      if !IsOk(status) then Alerted(StatusError(ConsultPrefix, status))
      else match body
        case Unparseable(reason) => Alerted(reason)
        case Other(_) => Navigated(EditLink + "undefined")
        case Payload(persona) => Navigated(EditLink + persona.numeroDocumento)
  }

  /**
   * The alert of a confirmed deletion: its transport error, "Error al
   * eliminar: {status}" for every non-2xx status (404 included), or the
   * success text.
   */
  function DeleteAlert<T>(resp: Response<T>): (a: string)
    ensures resp.Failed? ==> a == resp.reason
    ensures resp.Reply? ==> (a == DeletedText <==> IsOk(resp.status))
    ensures resp.Reply? && !IsOk(resp.status) ==>
      |a| > |DeletePrefix| && a[..|DeletePrefix|] == DeletePrefix
      && IsDigits(a[|DeletePrefix|..]) && DigitsValue(a[|DeletePrefix|..]) == resp.status
  {
    match resp
    case Failed(reason) => reason
    case Reply(status, _, _) => if !IsOk(status) then StatusText(DeletePrefix, status) else DeletedText
  }

  /** A 404 on deletion is reported like any other status, not as "not found". */
  lemma DeleteQuotesEveryStatus<T>(statusText: string, body: Body<T>)
    ensures DeleteAlert(Reply(NotFoundStatus, statusText, body)) == StatusText(DeletePrefix, NotFoundStatus)
    ensures DeleteAlert(Reply(NotFoundStatus, statusText, body)) != NotFoundText
  {
    assert StatusText(DeletePrefix, NotFoundStatus)[0] == DeletePrefix[0];
  }

  class ConsultForm {
    var button: Control
    var alerts: seq<string>
    var sent: seq<Sent>
    var deletions: seq<Request>
    var location: Option<string>

    constructor (button: Control)
      ensures this.button == button && alerts == [] && sent == [] && deletions == [] && location == None
    {
      this.button := button;
      alerts := [];
      sent := [];
      deletions := [];
      location := None;
    }

    /**
     * The submit handler. An invalid document number is alerted and nothing
     * is sent. Otherwise the GET leaves with the button locked; the button
     * gets its text back and is enabled once a reply arrives, but stays
     * locked after a transport failure; the lookup then alerts or navigates
     * as `LookupOutcome` says.
     */
    method Submit(numeroDocumento: string, resp: Response<PersonaJson>)
      modifies this
      ensures !PersonaRules.DocumentNumberOk(numeroDocumento) ==>
        && alerts == old(alerts) + [PersonaRules.Message(PersonaRules.DocumentNumber)]
        && sent == old(sent) && button == old(button) && location == old(location)
      ensures PersonaRules.DocumentNumberOk(numeroDocumento) ==>
        && sent == old(sent) + [Sent(Request(GET, PersonaPath(numeroDocumento)), Consulting)]
        && button == (if resp.Failed? then Consulting else Control(false, old(button).text))
        && alerts == old(alerts) + (if LookupOutcome(resp).Alerted? then [LookupOutcome(resp).message] else [])
        && location == (if LookupOutcome(resp).Navigated? then Some(LookupOutcome(resp).url) else old(location))
      ensures deletions == old(deletions)
    {
      if !PersonaRules.DocumentNumberOk(numeroDocumento) {
        alerts := alerts + [PersonaRules.Message(PersonaRules.DocumentNumber)];
        return;
      }
      var originalText := button.text;
      button := Consulting;
      sent := sent + [Sent(Request(GET, PersonaPath(numeroDocumento)), button)];
      if resp.Failed? {
        alerts := alerts + [resp.reason];
        return;
      }
      button := Control(false, originalText);
      if !IsOk(resp.status) {
        if resp.status == NotFoundStatus {
          alerts := alerts + [NotFoundText];
        } else {
          alerts := alerts + [StatusText(ConsultPrefix, resp.status)];
        }
        return;
      }
      match resp.body {
        case Unparseable(reason) =>
          alerts := alerts + [reason];
        case Other(_) =>
          location := Some(EditLink + "undefined");
        case Payload(persona) =>
          location := Some(EditLink + persona.numeroDocumento);
      }
    }

    /**
     * `eliminarPersona`: nothing happens unless the user confirms; then the
     * DELETE is sent, its outcome alerted, and a success returns to the index.
     */
    method EliminarPersona<T>(numeroDocumento: string, confirmed: bool, resp: Response<T>)
      modifies this
      ensures !confirmed ==> deletions == old(deletions) && alerts == old(alerts) && location == old(location)
      ensures confirmed ==>
        && deletions == old(deletions) + [Request(DELETE, PersonaPath(numeroDocumento))]
        && alerts == old(alerts) + [DeleteAlert(resp)]
        && location == (if resp.Reply? && IsOk(resp.status) then Some(IndexPage) else old(location))
      ensures button == old(button) && sent == old(sent)
    {
      if confirmed {
        deletions := deletions + [Request(DELETE, PersonaPath(numeroDocumento))];
        if resp.Failed? {
          alerts := alerts + [resp.reason];
        } else if !IsOk(resp.status) {
          alerts := alerts + [StatusText(DeletePrefix, resp.status)];
        } else {
          alerts := alerts + [DeletedText];
          location := Some(IndexPage);
        }
      }
    }
  }
}
