/**
 * The delete page (frontend/app/delete.js): a document number is checked,
 * the user is asked to confirm, and the DELETE runs with the button locked;
 * the outcome is shown in the page's message area and a success clears the
 * form.
 */
module DeletePage {
  import opened Base
  import opened Http
  import PersonaRules

  const DeletingLabel := "Eliminando..."
  const DeletePrefix := "Error al eliminar: "
  const FailurePrefix := "Error al eliminar la persona: "
  const DeletedHead := "Persona con documento "
  const DeletedTail := " eliminada exitosamente"

  /** The button while the deletion is in flight. */
  const Deleting := Control(true, DeletingLabel)

  /** The message area: its text and whether it is shown as an error (red) or not (green). */
  datatype Message = Message(text: string, isError: bool)

  /**
   * The message a confirmed deletion ends with: the transport error, "not
   * found" for a 404 or the status for any other non-2xx, each after the
   * failure prefix; on success, a text naming the document.
   */
  function DeleteMessage<T>(numeroDocumento: string, resp: Response<T>): (m: Message)
    ensures m.isError <==> !(resp.Reply? && IsOk(resp.status))
    ensures resp.Failed? ==> m.text == FailurePrefix + resp.reason
    ensures resp.Reply? && resp.status == NotFoundStatus ==> m.text == FailurePrefix + NotFoundText
    ensures resp.Reply? && !IsOk(resp.status) && resp.status != NotFoundStatus
            ==> m.text == FailurePrefix + StatusText(DeletePrefix, resp.status)
    ensures resp.Reply? && IsOk(resp.status) ==> m.text == DeletedHead + numeroDocumento + DeletedTail
  {
    match resp
    case Failed(reason) => Message(FailurePrefix + reason, true)
    case Reply(status, _, _) =>
      if !IsOk(status) then Message(FailurePrefix + StatusError(DeletePrefix, status), true)
      else Message(DeletedHead + numeroDocumento + DeletedTail, false)
  }

  /**
   * Among replies, the message reports "not found" exactly for a 404: a
   * success and every other status give a different text.
   */
  lemma DeleteReportsNotFoundOnlyFor404<T>(numeroDocumento: string, resp: Response<T>)
    requires resp.Reply?
    ensures DeleteMessage(numeroDocumento, resp).text == FailurePrefix + NotFoundText <==> resp.status == NotFoundStatus
  {
    var m := DeleteMessage(numeroDocumento, resp);
    if IsOk(resp.status) {
      assert m.text[0] == DeletedHead[0];
      assert (FailurePrefix + NotFoundText)[0] == FailurePrefix[0];
    } else {
      StatusErrorTellsNotFound(DeletePrefix, resp.status);
      assert m.text == FailurePrefix + StatusError(DeletePrefix, resp.status);
      if m.text == FailurePrefix + NotFoundText {
        assert StatusError(DeletePrefix, resp.status) == (FailurePrefix + NotFoundText)[|FailurePrefix|..];
      }
    }
  }

  /** The confirmation question, naming the document. */
  function ConfirmQuestion(numeroDocumento: string): string
  {
    "¿Está seguro de eliminar a la persona con documento " + numeroDocumento + "?"
  }

  /** The form's document field after a deletion: cleared by the reset only on success. */
  function FieldAfter<T>(field: string, resp: Response<T>): string
  {
    if resp.Reply? && IsOk(resp.status) then "" else field
  }

  class DeleteForm {
    /** The document number typed into the form. */
    var docToDelete: string
    var button: Control
    var message: Option<Message>
    var sent: seq<Sent>
    /** The confirmation questions put to the user. */
    var asked: seq<string>

    constructor (button: Control)
      ensures this.button == button && docToDelete == "" && message == None && sent == [] && asked == []
    {
      asked := [];
      this.button := button;
      docToDelete := "";
      message := None;
      sent := [];
    }

    /**
     * The submit handler. An invalid document number is reported as an error
     * with no confirmation asked and nothing sent. Otherwise the user is asked
     * to confirm, and a refusal changes nothing else. Otherwise the DELETE leaves with the button locked;
     * the button gets its text back and is enabled once a reply arrives but
     * stays locked after a transport failure; the message area then shows
     * `DeleteMessage`, and the field is cleared on success.
     */
    method Submit<T>(confirm: bool, resp: Response<T>)
      modifies this
      ensures !PersonaRules.DocumentNumberOk(old(docToDelete)) ==>
        && message == Some(Message(PersonaRules.Message(PersonaRules.DocumentNumber), true))
        && sent == old(sent) && button == old(button) && docToDelete == old(docToDelete) && asked == old(asked)
      ensures PersonaRules.DocumentNumberOk(old(docToDelete)) ==> asked == old(asked) + [ConfirmQuestion(old(docToDelete))]
      ensures PersonaRules.DocumentNumberOk(old(docToDelete)) && !confirm ==>
        message == old(message) && sent == old(sent) && button == old(button) && docToDelete == old(docToDelete)
      ensures PersonaRules.DocumentNumberOk(old(docToDelete)) && confirm ==>
        && sent == old(sent) + [Sent(Request(DELETE, PersonaPath(old(docToDelete))), Deleting)]
        && button == (if resp.Failed? then Deleting else Control(false, old(button).text))
        && message == Some(DeleteMessage(old(docToDelete), resp))
        && docToDelete == FieldAfter(old(docToDelete), resp)
    {
      var numeroDocumento := docToDelete;
      if !PersonaRules.DocumentNumberOk(numeroDocumento) {
        message := Some(Message(PersonaRules.Message(PersonaRules.DocumentNumber), true));
        return;
      }
      asked := asked + [ConfirmQuestion(numeroDocumento)];
      if !confirm {
        return;
      }
      var originalText := button.text;
      button := Deleting;
      sent := sent + [Sent(Request(DELETE, PersonaPath(numeroDocumento)), button)];
      if resp.Failed? {
        message := Some(Message(FailurePrefix + resp.reason, true));
        return;
      }
      button := Control(false, originalText);
      if !IsOk(resp.status) {
        var error := if resp.status == NotFoundStatus then NotFoundText else StatusText(DeletePrefix, resp.status);
        message := Some(Message(FailurePrefix + error, true));
        return;
      }
      message := Some(Message(DeletedHead + numeroDocumento + DeletedTail, false));
      docToDelete := "";
    }
  }
}
