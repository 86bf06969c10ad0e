/**
 * The search step before an update (frontend/app/updateSearch.js): the
 * handler is installed only when the page has its form and message area; a
 * checked document number is looked up with the button locked, and a found
 * record opens the update form for the number typed.
 */
module UpdateSearchPage {
  import opened Base
  import opened Http
  import PersonaRules
  import opened Strings

  const SearchingLabel := "Buscando..."
  const SearchPrefix := "Error al buscar: "
  const FailurePrefix := "Error al buscar la persona: "

  /** The update form, for a document number appended to this. */
  const UpdateLink := "updateform.html?doc="

  /** The button while the search is in flight. */
  const Searching := Control(true, SearchingLabel)

  /** The message area: its text and whether it is shown as an error. */
  datatype Message = Message(text: string, isError: bool)

  /**
   * The error a search that got past validation ends with, if any: the
   * transport error, "not found" for a 404 or the status for any other
   * non-2xx, after the failure prefix. A 2xx reply is never an error; its
   * body is not read.
   */
  function SearchError<T>(resp: Response<T>): (e: Option<string>)
    ensures e.None? <==> resp.Reply? && IsOk(resp.status)
    ensures resp.Failed? ==> e == Some(FailurePrefix + resp.reason)
    ensures resp.Reply? && resp.status == NotFoundStatus ==> e == Some(FailurePrefix + NotFoundText)
    ensures resp.Reply? && !IsOk(resp.status) && resp.status != NotFoundStatus
            ==> e == Some(FailurePrefix + StatusText(SearchPrefix, resp.status))
  {
    match resp
    case Failed(reason) => Some(FailurePrefix + reason)
    case Reply(status, _, _) => if IsOk(status) then None else Some(FailurePrefix + StatusError(SearchPrefix, status))
  }

  /**
   * Among replies, the search reports "not found" exactly for a 404, and
   * every other failing status is quoted after the search prefix.
   */
  lemma SearchReportsNotFoundOnlyFor404<T>(resp: Response<T>)
    requires resp.Reply?
    ensures SearchError(resp) == Some(FailurePrefix + NotFoundText) <==> resp.status == NotFoundStatus
    ensures !IsOk(resp.status) && resp.status != NotFoundStatus
            ==> SearchError(resp).value[|FailurePrefix| + |SearchPrefix|..] == NatToString(resp.status)
  {
    if !IsOk(resp.status) {
      StatusErrorTellsNotFound(SearchPrefix, resp.status);
      var e := SearchError(resp).value;
      assert e[|FailurePrefix|..] == StatusError(SearchPrefix, resp.status);
      if e == FailurePrefix + NotFoundText {
        assert StatusError(SearchPrefix, resp.status) == (FailurePrefix + NotFoundText)[|FailurePrefix|..];
      }
      if resp.status != NotFoundStatus {
        assert e[|FailurePrefix| + |SearchPrefix|..] == StatusError(SearchPrefix, resp.status)[|SearchPrefix|..];
      }
    }
  }

  class UpdateSearchForm {
    var handlerInstalled: bool
    var button: Control
    var message: Option<Message>
    var sent: seq<Sent>
    var location: Option<string>

    /** Page load: the submit handler is installed only if both the form and the message area exist. */
    constructor (formFound: bool, messageFound: bool, button: Control)
      ensures handlerInstalled <==> formFound && messageFound
      ensures this.button == button && message == None && sent == [] && location == None
    {
      handlerInstalled := formFound && messageFound;
      this.button := button;
      message := None;
      sent := [];
      location := None;
    }

    /**
     * A submit: without the handler nothing happens. An invalid document
     * number is reported with nothing sent. Otherwise the GET leaves with the
     * button locked; the button gets its text back and is enabled once a
     * reply arrives but stays locked after a transport failure; a 2xx opens
     * the update form for the number typed, and anything else is reported.
     */
    method Submit<T>(numeroDocumento: string, resp: Response<T>)
      modifies this`button, this`message, this`sent, this`location
      ensures !handlerInstalled ==>
        button == old(button) && message == old(message) && sent == old(sent) && location == old(location)
      ensures handlerInstalled && !PersonaRules.DocumentNumberOk(numeroDocumento) ==>
        && message == Some(Message(PersonaRules.Message(PersonaRules.DocumentNumber), true))
        && button == old(button) && sent == old(sent) && location == old(location)
      ensures handlerInstalled && PersonaRules.DocumentNumberOk(numeroDocumento) ==>
        && sent == old(sent) + [Sent(Request(GET, PersonaPath(numeroDocumento)), Searching)]
        && button == (if resp.Failed? then Searching else Control(false, old(button).text))
        && message == (if SearchError(resp).Some? then Some(Message(SearchError(resp).value, true)) else old(message))
        && location == (if SearchError(resp).None? then Some(UpdateLink + numeroDocumento) else old(location))
    {
      if !handlerInstalled {
        return;
      }
      if !PersonaRules.DocumentNumberOk(numeroDocumento) {
        message := Some(Message(PersonaRules.Message(PersonaRules.DocumentNumber), true));
        return;
      }
      var originalText := button.text;
      button := Searching;
      sent := sent + [Sent(Request(GET, PersonaPath(numeroDocumento)), button)];
      if resp.Failed? {
        message := Some(Message(FailurePrefix + resp.reason, true));
        return;
      }
      button := Control(false, originalText);
      if !IsOk(resp.status) {
        var error := if resp.status == NotFoundStatus then NotFoundText else StatusText(SearchPrefix, resp.status);
        message := Some(Message(FailurePrefix + error, true));
        return;
      }
      location := Some(UpdateLink + numeroDocumento);
    }
  }
}
