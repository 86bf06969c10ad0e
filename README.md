# Persona registry: a verified Dafny model

This project models a small persona registry. It has three parts:
- Browser pages that create, look up, update and delete one kind of record, a "persona".
- A record service that validates and stores personas.
- A log service, two natural-language query services and a log-search page.

Each page handler is modelled imperatively, as the JavaScript is written:
- A class holds the page's state: button state, messages, alerts, requests sent, and the location it navigated to.
- A method per handler states the page's whole new state in terms of the inputs.
- Each `fetch` is an input of the abstract `Http.Response` type. It is a transport failure, or a reply with a status and a body that may not parse.

The Python services are modelled as follows:
- Field validators are pure predicates.
- The Firestore collection is a `map` held by a class.
- The log delivery is an appended event.
- The filter chains, searches and loops become functions and loop methods, proved against specification functions.

The files are:

| file | module | models |
|---|---|---|
| base.dfy | Base | `Option`, `Result`, subsequence |
| strings.dfy | Strings | ASCII character classes, `lower`, substring search, `split`/`strip`/`join`, whitespace split, decimal printing |
| http.dfy | Http | requests, responses, bodies, `detail` handling, shared paths and texts |
| persona_rules.dfy | PersonaRules | the eight client-side rules shared by frontend/app/form.js and frontend/app/update.js, prefill mappings |
| form_page.dfy | FormPage | frontend/app/form.js |
| update_page.dfy | UpdatePage | frontend/app/update.js |
| persona_service.dfy | PersonaService | main-service/app/main.py |
| log_service.dfy | LogService | log-service/app/main.py |
| log_page.dfy | LogPage | frontend/app/log.js, and the page and service together |
| record_search.dfy | RecordSearch | the selection shared by both query services |
| query_service.dfy | QueryService | query-service/app/main.py |
| consulta_natural.dfy | ConsultaNatural | consulta-natural-service/app/main.py |
| llm_page.dfy | LlmPage | frontend/app/llm.js |
| consult_page.dfy | ConsultPage | frontend/app/consult.js |
| delete_page.dfy | DeletePage | frontend/app/delete.js |
| update_search_page.dfy | UpdateSearchPage | frontend/app/updateSearch.js |

The model states some behaviours of the code that a reader of the pages might not expect:
- The pages send their select codes (`CC`/`TI`, `M`/`F`/`NB`/`NR`) unchanged (frontend/app/form.js:158-168). The record service's enumerations (main-service/app/main.py:33-41) refuse them. Nothing translates the codes, and the model adds no translation. `FormPage.CodesSentAsTyped` and `PersonaService.SelectCodesRejected` state this.
- A 422 error list is not normalised. The pages read only `detail`, and an array `detail` is printed as JavaScript prints it (`Http.DetailOr`). `PersonaService.RefusalShownAsObjects` gives the resulting message.
- A failed read-back after an accepted write is reported with the same "Error al registrar la persona: " prefix as a failed write (`FormPage.SubmitOutcome`).
- In edit mode, the document fields are locked when the page loads. A finished load unlocks every control again, these fields included (`FormPage.PersonaFormPage.LoadPersonaData`).
- The create / edit page keeps one error list for all submits and empties it at the start of each submit (`FormPage.PersonaFormPage.Validate`).
- A successful create / edit submit leaves the form locked and schedules the redirect (`FormPage.PersonaFormPage.Report`).

## Model

| member | source | states |
|---|---|---|
| Strings.Lower | query-service/app/main.py:45 | `lower()` keeps the length and lowercases each character |
| Strings.Split | log-service/app/main.py:69 | `split(',')` gives at least one piece, and no piece holds the separator |
| Strings.Strip | log-service/app/main.py:69 | `strip()` gives `s` without its surrounding whitespace: `s` is the result with only whitespace before and after it, and the result neither starts nor ends with whitespace |
| Strings.StripClean | log-service/app/main.py:69 | `strip()` leaves a string without surrounding whitespace unchanged |
| Strings.SplitJoin | log-service/app/main.py:69 | splitting a comma-join of pieces without commas gives the pieces back |
| Strings.Words | query-service/app/main.py:45 | `split()` gives the maximal whitespace-free runs of `s`, in order: `s` is these non-empty words with a non-empty whitespace run between two words and possibly empty runs at either end; no words iff the text is all whitespace |
| Strings.ContainsJoin | query-service/app/main.py:51-52 | a needle without the joining space occurs in the joined text iff it occurs in one of the pieces |
| Strings.NatToString | frontend/app/consult.js:42 | `${n}`: decimal digits whose value is `n`, without a leading zero |
| Strings.JoinHasPart | frontend/app/llm.js:19 | every piece occurs in the joined text |
| Http.DetailOr | frontend/app/form.js:249 | `detail \|\| fallback`: a non-empty string `detail`, the printed array `detail`, otherwise the fallback |
| Http.PersonaPath | frontend/app/consult.js:32 | the path is the collection path followed by exactly the document number |
| Http.StatusText | frontend/app/consult.js:42 | the prefix followed by decimal digits whose value is the status, without a leading zero |
| Http.StatusError | frontend/app/consult.js:38-43 | the 404 text "Persona no encontrada" for a 404, otherwise the prefix and the status; `StatusErrorTellsNotFound` proves the two never meet |
| Http.StatusErrorTellsNotFound | frontend/app/consult.js:38-43 | a lookup error reads "Persona no encontrada" iff the status is 404; other statuses are quoted |
| PersonaRules.ReadForm | frontend/app/form.js:158-168 | inputs are taken as typed, select codes included; an empty middle name becomes null, and only then |
| PersonaRules.DocumentNumberOk | frontend/app/form.js:171 | `/^\d{1,10}$/`: one to ten ASCII digits |
| PersonaRules.RequiredNameOk | frontend/app/form.js:175 | a required name (first name, max 30; last names at line 183, max 60): non-empty, at most `max` characters, not all digits |
| PersonaRules.MiddleNameBad | frontend/app/form.js:179 | the middle-name rule is broken only by a present, non-empty name that is longer than 30 or all digits |
| PersonaRules.EmailOk | frontend/app/form.js:191 | the e-mail check at the first `@` and the last dot; `EmailOkMatchesPattern` proves it equal to the regular expression |
| PersonaRules.PhoneOk | frontend/app/form.js:195 | `/^\d{10}$/`: exactly ten ASCII digits |
| PersonaRules.PhotoTooLarge | frontend/app/form.js:199-202 | broken only by a chosen photo of more than 2 * 1024 * 1024 bytes |
| PersonaRules.Violations | frontend/app/form.js:171-203 | the broken rules in checking order; `ViolationsFacts` proves it holds exactly the broken rules, once each |
| PersonaRules.EmailOkMatchesPattern | frontend/app/form.js:191 | the split at the first `@` and the last dot accepts exactly what the e-mail pattern accepts |
| PersonaRules.UptoFacts | frontend/app/form.js:171-203 | the first k checks report exactly the broken rules among them, in checking order |
| PersonaRules.ViolationsFacts | frontend/app/form.js:171-203 | the error list holds exactly the broken rules, each once, in field order; at most eight |
| PersonaRules.CollectErrors | frontend/app/form.js:171-203 | the eight sequential pushes produce exactly the violation list |
| PersonaRules.DocTypeCode | frontend/app/form.js:104 | the code is CC iff the server says "Cédula"; otherwise it is TI |
| PersonaRules.GenderCodeOnUpdate | frontend/app/update.js:34-41 | the switch leaves the update page's code for the server's gender |
| PersonaRules.GenderCodesCompared | frontend/app/update.js:34-40 | both pages agree on the four server values; for any other value, one shows NR and the other M |
| PersonaRules.GenderCodeOnForm | frontend/app/form.js:114 | the create / edit page's nested conditional: M, F, NB for the three named values, NR for anything else |
| PersonaRules.UpdateGenderCode | frontend/app/update.js:34-41 | the code the update page's switch leaves: F, NB, NR for their values, M for "Masculino" and for anything else |
| PersonaRules.PrefillOnForm | frontend/app/form.js:101-116 | the middle-name input is empty iff the record has no middle name or an empty one |
| PersonaRules.PrefillOnUpdate | frontend/app/update.js:26-44 | the same for the update page's prefill |
| PersonaRules.PrefillReadBack | frontend/app/form.js:104-116 | reading back a prefilled form gives the record's own text fields, with "" coming back as null |
| PersonaRules.Messages | frontend/app/form.js:208 | one message per rule, in the same order |
| PersonaRules.FormErrorsText | frontend/app/form.js:208 | the header "Errores en el formulario:" and a blank line, then one message per line |
| PersonaRules.Render | frontend/app/form.js:208 | the text a notice shows: `FormErrorsText` for broken rules, the plain text otherwise; `RenderedErrorsMention` proves every listed rule's message appears |
| PersonaRules.RenderedErrorsMention | frontend/app/form.js:208 | the error notice carries the message of every rule it lists |
| PersonaRules.PartialFillOnForm | frontend/app/form.js:104-110 | for a JSON object without the record's members, fillForm sets type TI, "undefined" number and names and an empty middle name before it throws; the later inputs keep their values |
| PersonaRules.PartialFillBreaksDocumentNumber | frontend/app/form.js:104-110 | after that partial fill, every submit breaks the document-number rule, while the name rules pass |
| PersonaRules.MissingRecordPrefill | frontend/app/update.js:26-44 | the update page fills every input from a JSON object without the record's members: type TI, gender M, "undefined" elsewhere |
| PersonaRules.MissingRecordOnUpdate | frontend/app/update.js:26-44 | after that fill, every submit breaks the document-number, e-mail and phone rules, while the names and the date pass, with every input keeping the text written into it |
| FormPage.WriteRequest | frontend/app/form.js:147-149 | PUT on `/api/personas/{doc}` iff the `doc` parameter is non-empty, otherwise POST on `/api/personas/` |
| FormPage.SubmitOutcome | frontend/app/form.js:206-273 | rejected iff a rule is broken; saved iff the write is 2xx with a parsed body and the read-back is 2xx and parses; the write's body is parsed before its status is checked; a refused write reads a non-empty `detail` (an array as "[object Object]" once per element), else "Error {status}: {statusText}"; a refused read-back reads "Error al verificar el guardado de datos", and a failed one its reason |
| FormPage.SubmitTrace | frontend/app/form.js:214-259 | no request on a broken rule; otherwise the write with the form data, then exactly one read-back of the form's document iff the write was accepted; all with the form locked |
| FormPage.PersonaFormPage.Open | frontend/app/form.js:66-72 | in edit mode, the two document fields start locked and the button reads "Actualizar Datos" |
| FormPage.PersonaFormPage.SetFormEnabled | frontend/app/form.js:54-63 | every control's `disabled` becomes `!enabled`, and the button label is Enviar / Enviando... |
| FormPage.PersonaFormPage.LoadPersonaData | frontend/app/form.js:75-131 | one GET of the edited record; a 404, another status or a failure gives its message; a record fills the inputs; the whole form ends enabled; a 2xx object that is not a record is filled in part and leaves the form as it was |
| FormPage.PersonaFormPage.Submit | frontend/app/form.js:141-274 | errors are the violations of the inputs; requests are sent only without errors; one notice; the form stays locked and the redirect is scheduled iff saved |
| FormPage.PersonaFormPage.Validate | frontend/app/form.js:144-203 | empties the shared error list, locks every control, and collects the violations |
| FormPage.PersonaFormPage.Report | frontend/app/form.js:205-273 | shows the outcome's notice; unlocks on failure; schedules the redirect on success |
| FormPage.PersonaFormPage.Exchange | frontend/app/form.js:214-262 | sends the write and, once it is accepted, the read-back; returns what the `catch` receives |
| FormPage.RejectionListsBrokenRules | frontend/app/form.js:205-211 | a rejection lists exactly the broken rules, in field order |
| FormPage.ReadBackOnlyAfterAcceptedWrite | frontend/app/form.js:248-257 | when the write is not accepted, the read-back response cannot change the outcome, which is never "saved" |
| FormPage.CodesSentAsTyped | frontend/app/form.js:158-168 | the write carries the select codes and the document number as typed; a blank middle name is sent as null, and only a blank one |
| UpdatePage.LoadError | frontend/app/update.js:12-23 | a load error occurs iff no 2xx reply with a parsed body arrived; a 404 gives "Persona no encontrada", another status "Error al consultar: {status}" |
| UpdatePage.UpdateOutcome | frontend/app/update.js:100-139 | rejected iff a rule is broken; updated iff the write is 2xx with a parsed body and the read-back is 2xx; a refused write reads a non-empty `detail` (an array as "[object Object]" once per element), else "Error {status}" whether `detail` is absent or empty or the body is a record; a refused read-back reads "Error al verificar la actualización de datos", and a failed request its reason |
| UpdatePage.UpdateTrace | frontend/app/update.js:115-132 | the PUT and the read-back both go to the URL's document; the read-back is sent iff the write was accepted |
| UpdatePage.UpdateFormPage.Open | frontend/app/update.js:1-4 | the page starts with no alerts, no requests and no submit listener |
| UpdatePage.UpdateFormPage.Load | frontend/app/update.js:6-48 | without a document: alert, go to the index, load nothing; otherwise one GET; an error is alerted and leads to the index; a 2xx body prefills the form (a non-record from its missing members) and installs the listener |
| UpdatePage.UpdateFormPage.Submit | frontend/app/update.js:48-140 | fresh errors are the violations; requests are sent only without errors; one alert; go to the index iff updated |
| UpdatePage.UpdateFormPage.Report | frontend/app/update.js:100-139 | alerts the outcome, with the update prefix on errors; navigates only when updated |
| UpdatePage.UpdateFormPage.Exchange | frontend/app/update.js:105-133 | the PUT and, once it is accepted, the read-back; returns what the `catch` receives |
| UpdatePage.ReadBackBodyIgnored | frontend/app/update.js:129-132 | the read-back's body never changes the outcome |
| UpdatePage.WriteStaysOnUrlDocument | frontend/app/update.js:115-118 | the write targets the URL's document even when the body carries an edited number |
| UpdatePage.RejectionListsBrokenRules | frontend/app/update.js:66-103 | a rejection lists exactly the broken rules, in field order |
| PersonaService.ParseDocumentType | main-service/app/main.py:33-35 | a string parses iff it is one of the two enumeration values, and it parses to that value |
| PersonaService.ParseGender | main-service/app/main.py:37-41 | the same for the four gender values |
| PersonaService.DocumentNumberValid | main-service/app/main.py:54-58 | `isdigit()` and at most ten characters |
| PersonaService.NameValid | main-service/app/main.py:60-64 | an empty name passes; otherwise not all digits and at most 30 characters |
| PersonaService.MiddleNameValid | main-service/app/main.py:60-64 | a null middle name passes; otherwise as `NameValid` |
| PersonaService.LastNamesValid | main-service/app/main.py:66-70 | not all digits and at most 60 characters (an empty value passes, as `isdigit()` is false on it) |
| PersonaService.PhoneValid | main-service/app/main.py:72-76 | `isdigit()` and exactly ten characters |
| PersonaService.EnumRoundTrip | main-service/app/main.py:33-41 | every enumeration value parses back to itself |
| PersonaService.FieldErrors | main-service/app/main.py:43-76 | a field is reported iff it fails its check; in declaration order |
| PersonaService.Validate | main-service/app/main.py:43-76 | Ok iff no field fails, and the record then carries the body's text; otherwise the failing fields |
| PersonaService.AcceptedEnumsParse | main-service/app/main.py:44-50 | a body without failing fields has a valid document type and gender |
| PersonaService.NoFailingFieldAccepted | main-service/app/main.py:54-76 | the error list is empty iff every field passes |
| PersonaService.ValidateRaw | main-service/app/main.py:43-76 | a record the validators accept validates back to itself |
| PersonaService.PhotoUrl | main-service/app/main.py:94-99 | the URL is "/uploads/" + filename iff a photo was uploaded |
| PersonaService.RefusalShownAsObjects | frontend/app/form.js:249 | a body the service refuses with 422 reaches both pages' `catch` as "[object Object]" once per failing field, comma-separated |
| PersonaService.ReadFrom | main-service/app/main.py:122-127 | a record with `id` = key iff the key is stored; otherwise a 404 "Persona no encontrada" |
| PersonaService.PersonaStore.constructor | main-service/app/main.py:28-29 | the store starts with the given collection and no posted events |
| PersonaService.PersonaStore.Create | main-service/app/main.py:91-118 | invalid body, then photo over 2 MiB, then existing key: each refused with nothing changed; otherwise stored under the document number, with one CREATE event |
| PersonaService.PersonaStore.Read | main-service/app/main.py:121-127 | as `ReadFrom` on the current collection |
| PersonaService.PersonaStore.Update | main-service/app/main.py:130-145 | invalid body or missing key: refused with nothing changed; otherwise the path's key is overwritten, `foto_url` is kept, and one UPDATE event is posted |
| PersonaService.PersonaStore.Delete | main-service/app/main.py:148-164 | a missing key gives 404 with nothing changed; otherwise exactly that key is removed, after one DELETE event naming the stored record |
| PersonaService.ReadAfterWrite | main-service/app/main.py:104-127 | a read after a write gives what was written; other keys are unaffected |
| PersonaService.ReadAfterDelete | main-service/app/main.py:148-164 | a read after a delete gives 404; other keys are unaffected |
| PersonaService.PageRulesImplyServiceValidators | main-service/app/main.py:54-76 | a form the pages accept passes the service's document, name, last-name and phone validators |
| PersonaService.ServiceAcceptsEmptyNames | main-service/app/main.py:60-70 | the service accepts empty first and last names, which the pages refuse |
| PersonaService.SelectCodesRejected | main-service/app/main.py:33-50 | a body carrying the pages' select codes is refused, with document type and gender failing |
| LogService.Where | log-service/app/main.py:70 | a comprehension keeps exactly the elements satisfying its condition, and never more |
| LogService.WhereSubsequence | log-service/app/main.py:70 | a comprehension keeps stream order |
| LogService.WhereWhere | log-service/app/main.py:68-79 | two filters in a row are one filter on the conjunction |
| LogService.WhereCommutes | log-service/app/main.py:68-79 | the order in which two filters are applied does not matter |
| LogService.TypeList | log-service/app/main.py:69 | one stripped entry per comma-separated piece |
| LogService.TypeFilter | log-service/app/main.py:68-70 | keeps an event whose type is in the stripped comma-separated list |
| LogService.DocumentFilter | log-service/app/main.py:72-73 | keeps an event of exactly that document |
| LogService.FromFilter | log-service/app/main.py:75-76 | keeps an event at or after the start instant |
| LogService.UntilFilter | log-service/app/main.py:78-79 | keeps an event at or before the end instant |
| LogService.Selected | log-service/app/main.py:68-79 | an event passes every filter whose parameter is set |
| LogService.Answer | log-service/app/main.py:63-81 | the selected events in stream order; `GetLogs` is proved equal to it and `AnswerFacts` gives its properties |
| LogService.GetLogs | log-service/app/main.py:53-85 | a stream failure gives the error text; otherwise the events satisfying every active filter, in stream order |
| LogService.AnswerFacts | log-service/app/main.py:63-79 | the answer is an order-preserving subsequence; it is newest first when the stream is, and holds exactly the selected events |
| LogService.SubsequenceOrdered | log-service/app/main.py:63-65 | a subsequence of a newest-first list is newest first |
| LogService.NoParametersAnswerAll | log-service/app/main.py:68-79 | with no parameter set, every event is returned |
| LogService.LogCollection.constructor | log-service/app/main.py:28 | the collection starts with the given documents |
| LogService.LogCollection.CreateLog | log-service/app/main.py:44-50 | stores and returns the body stamped with the given time under the given fresh id; nothing else changes |
| LogPage.CheckedTypes | frontend/app/log.js:45-52 | an ordered selection of CREATE, UPDATE, DELETE, containing a type iff its box is checked |
| LogPage.CollectTypes | frontend/app/log.js:45-52 | the pushes produce `CheckedTypes` |
| LogPage.QueryParams | frontend/app/log.js:59-76 | the four parameters in append order, each only when its input is filled; `QueryParamsFacts` gives their properties |
| LogPage.Lookup | log-service/app/main.py:54-59 | a parameter is found iff one with that name was sent |
| LogPage.QueryParamsFacts | frontend/app/log.js:59-76 | each parameter is sent at most once, in a fixed order; `tipo` is the comma-join, sent only for a non-empty list; `documento` only when non-empty; each date with its day bound, only when filled |
| LogPage.BuildParams | frontend/app/log.js:59-76 | the appends produce `QueryParams` |
| LogPage.TypeListRoundTrip | frontend/app/log.js:62-64 | the service's split and strip recover exactly the list the page joined |
| LogPage.Received | log-service/app/main.py:54-59 | the query is refused iff a sent date does not parse |
| LogPage.ReceivedQuery | frontend/app/log.js:59-79 | the query the service runs for a search whose dates parse |
| LogPage.TypeParamSelects | frontend/app/log.js:62-64 | the `tipo` parameter keeps exactly the listed types, or every type when nothing is checked |
| LogPage.SearchSelectsAsChecked | frontend/app/log.js:45-79 | page and service together keep an event iff its type is checked (or nothing is), the document matches (or is blank), and it lies within the chosen days, bounds included |
| LogPage.SearchView | frontend/app/log.js:90-123 | "nothing found" iff a 2xx empty list; otherwise every event with count = `logs.length`; a failure or a 2xx body that does not parse shows its message; a non-2xx shows `detail`, else "Error al buscar logs: {status}" |
| LogPage.LogSearchPage.constructor | frontend/app/log.js:2-3 | the button starts idle and the results area blank |
| LogPage.LogSearchPage.TestConnection | frontend/app/log.js:9-35 | only a failed connection test changes the results area |
| LogPage.LogSearchPage.Search | frontend/app/log.js:37-134 | the built query leaves with the button locked as "Buscando..."; the results show `SearchView`; the button always ends enabled as "Buscar" |
| RecordSearch.Terms | query-service/app/main.py:45 | the terms are non-empty and whitespace-free, and there are none iff the query is blank |
| RecordSearch.TermsAreWords | query-service/app/main.py:45 | the terms are the whitespace-separated words of the lowercased query, in order: the lowercased query is these words with a non-empty whitespace run between two of them |
| RecordSearch.LowerValues | query-service/app/main.py:51 | each value is lowercased, in order |
| RecordSearch.RecordText | query-service/app/main.py:51 | the lowercased values joined by single spaces |
| RecordSearch.Relevant | query-service/app/main.py:52 | some term occurs in the record's text; `RelevantByValue` proves it is the same as occurring in one value |
| RecordSearch.RelevantByValue | query-service/app/main.py:51-52 | a record is relevant iff some term occurs within one of its lowercased values |
| RecordSearch.AllRelevant | query-service/app/main.py:49-53 | the relevant records are never more than the records |
| RecordSearch.AllRelevantComplete | query-service/app/main.py:50-53 | exactly the relevant records, in stream order |
| RecordSearch.AllRelevantPrefix | query-service/app/main.py:50-55 | the relevant records of a prefix are a prefix of the relevant records |
| RecordSearch.FirstRelevant | query-service/app/main.py:49-57 | at most five; a prefix of all relevant records; fewer than five iff there are fewer than five relevant records, and then all of them |
| RecordSearch.FirstRelevantStops | query-service/app/main.py:54-55 | once a prefix yields five relevant records, the selection is exactly those |
| RecordSearch.ScanStep | query-service/app/main.py:50-55 | reading one more record appends it exactly when it is relevant, and reaching five makes the selection final |
| RecordSearch.FirstRelevantFacts | query-service/app/main.py:49-57 | an order-preserving subsequence of relevant records; no relevant record is skipped unless five were taken |
| RecordSearch.BlankQuerySelectsNothing | query-service/app/main.py:45-52 | a blank query selects nothing |
| RecordSearch.OrNone | query-service/app/main.py:86 | `relevant_data or None`: None iff the selection is empty |
| QueryService.GetRelevantData | query-service/app/main.py:44-57 | the selection for the query's terms is `FirstRelevant` of the stream |
| QueryService.Scan | query-service/app/main.py:49-57 | the append-and-break loop over the list read from the stream returns `FirstRelevant` of it |
| QueryService.ProcessQuery | query-service/app/main.py:81-88 | a stream or generator exception gives its text; otherwise the answer and `OrNone` of the selection |
| ConsultaNatural.GetRelevantData | consulta-natural-service/app/main.py:34-45 | returns `FirstRelevant`; the documents read are a prefix; reading stops early only right after the fifth relevant record |
| ConsultaNatural.Scan | consulta-natural-service/app/main.py:37-45 | the loop over the stream returns `FirstRelevant`; the documents read are a prefix; reading stops early only right after the fifth relevant record |
| ConsultaNatural.ProcessQuery | consulta-natural-service/app/main.py:58-66 | as in the query service, with every error prefixed "Error interno: " |
| LlmPage.Retrieve | frontend/app/llm.js:14-16 | the filter never grows the list |
| LlmPage.Mentions | frontend/app/llm.js:15 | the name or the city contains the query |
| LlmPage.RetrieveFacts | frontend/app/llm.js:14-16 | keeps, in order, exactly the items whose name or city contains the query |
| LlmPage.Prompt | frontend/app/llm.js:19 | the prompt opens with "Basado en estos datos: ", holds the JSON of every retrieved item, and ends with ", responde: " and the question |
| LlmPage.ItemsMentioned | frontend/app/llm.js:19 | each item's JSON occurs in the JSON of the list |
| LlmPage.QueryLlm | frontend/app/llm.js:7-10 | one choice whose content is "Respuesta simulada para: " followed by the prompt |
| LlmPage.SimulatedAnswerEchoesQuestion | frontend/app/llm.js:12-21 | the simulated answer is the stub prefix, then the prompt; it opens with the lead-in, quotes every given item and ends with the question |
| LlmPage.SearchWithRag | frontend/app/llm.js:12-21 | the answer opens with the stub's prefix and the lead-in, quotes every retrieved item and ends with the question |
| LlmPage.MissingMiddleNameRendersEmpty | frontend/app/llm.js:65 | a record without a middle name renders as one whose middle name is empty |
| LlmPage.ItemHtml | frontend/app/llm.js:64-67 | one entry: the three names, then the document number in parentheses |
| LlmPage.ItemsHtml | frontend/app/llm.js:63-68 | the entries in order; `AppendItems` is proved equal to it |
| LlmPage.ResultHtml | frontend/app/llm.js:51-76 | a failure, a non-2xx status or an unreadable body shows the fixed error paragraph; without relevant records, only the answer is shown; a 2xx JSON object that is not an answer shows the answer "undefined" |
| LlmPage.LlmPagePanel.HandleNaturalLanguageQuery | frontend/app/llm.js:23-29 | a cancelled or empty prompt does nothing; otherwise the simulated answer is alerted |
| LlmPage.LlmPagePanel.AppendItems | frontend/app/llm.js:63-68 | the `forEach` loop appends every entry's HTML, in order |
| LlmPage.LlmPagePanel.EnviarConsulta | frontend/app/llm.js:31-77 | an empty question is alerted and nothing is sent; otherwise one post, then the result area shows `ResultHtml` |
| ConsultPage.LookupOutcome | frontend/app/consult.js:38-49 | navigates iff a 2xx body parsed, to `form.html?doc=` + the returned number; 404 alerts "Persona no encontrada"; another status alerts "Error al consultar: {status}"; a transport failure or a 2xx body that does not parse alerts its reason |
| ConsultPage.DeleteAlert | frontend/app/consult.js:62-79 | the transport error for a failure; for a reply, the success text iff 2xx, otherwise "Error al eliminar: " and digits whose value is the status |
| ConsultPage.DeleteQuotesEveryStatus | frontend/app/consult.js:66-68 | a 404 on deletion alerts "Error al eliminar: 404", not "not found" |
| ConsultPage.ConsultForm.Submit | frontend/app/consult.js:16-56 | an invalid number is alerted with nothing sent; otherwise one GET with the button locked; the button is restored after a reply, not after a failure; then an alert or a navigation |
| ConsultPage.ConsultForm.EliminarPersona | frontend/app/consult.js:59-81 | nothing happens without confirmation; otherwise one DELETE, its alert, and the index on success |
| DeletePage.DeleteMessage | frontend/app/delete.js:48-62 | an error iff no 2xx reply; the failure prefix with the reason, "Persona no encontrada" for a 404, or "Error al eliminar: {status}" for any other status; success names the document |
| DeletePage.DeleteReportsNotFoundOnlyFor404 | frontend/app/delete.js:48-53 | among replies, the message says "not found" iff the status is 404 |
| DeletePage.ConfirmQuestion | frontend/app/delete.js:29 | the confirmation question naming the document |
| DeletePage.DeleteForm.Submit | frontend/app/delete.js:16-66 | an invalid number gives an error, with no question and no request; a refusal sends nothing; otherwise one DELETE with the button locked as "Eliminando..."; the button is restored after a reply; the field is cleared on success |
| UpdateSearchPage.SearchError | frontend/app/updateSearch.js:57-71 | an error iff no 2xx reply; prefixed "Error al buscar la persona: "; "Persona no encontrada" for 404, "Error al buscar: {status}" otherwise |
| UpdateSearchPage.SearchReportsNotFoundOnlyFor404 | frontend/app/updateSearch.js:57-62 | among replies, the error says "not found" iff the status is 404; other statuses are quoted |
| UpdateSearchPage.UpdateSearchForm.constructor | frontend/app/updateSearch.js:12-20 | the handler is installed iff both the form and the message area exist |
| UpdateSearchPage.UpdateSearchForm.Submit | frontend/app/updateSearch.js:29-72 | without the handler nothing happens; an invalid number gives an error with nothing sent; otherwise one GET with the button locked as "Buscando..."; a 2xx opens `updateform.html?doc=` + the typed number |

## Left out

- The DOM: markup, styling, `innerHTML` templates, message-box removal and `resultadoDiv.remove()`. Messages are strings or `Announcement`s. Alerts are a list, and confirmations and prompts are parameters.
- `setTimeout`: a success redirect on the create / edit page is a "redirect scheduled" flag, and the removal of an error box after five seconds is not modelled.
- `fetch`, multipart encoding and HTTP framing. Every response is a `Response` value given to the handler, and each handler runs to completion. The service's JSON-body binding of `update_persona`, against the pages' multipart body, is not modelled.
- Firestore: a collection is a `map`. A stream is the list of its documents, or a failure. A failure that happens partway through reading a stream is modelled as a failure of the whole stream.
- `requests.post` to the log service: each post is an appended `LogPost`. Its own failures are not modelled.
- Pydantic `EmailStr` and `date` parsing: the record service takes whether they pass as two booleans, `dateOk` and `emailOk`. The `id: int` coercion is not modelled, and `id` stays the key string.
- The log service's ISO 8601 timestamp parsing is the `parse` parameter of `LogPage.Received`. Instants are integers. Exceptions in `get_logs` other than a failing stream are not modelled.
- JavaScript `Date`, `toISOString` and `toLocaleString`: the prefilled birth date is the server's text, and log dates are not rendered.
- Each log entry's HTML, and the log page's choice of service URL by hostname, are not modelled.
- `URLSearchParams` percent-encoding is not modelled: parameters are name and value pairs.
- The language-model calls (`generate_answer`, LangChain, Gemini) are the `Generator` parameter, which returns an answer or an exception's text.
- `str(v)` of non-string record values: a record is the list of its values' texts.
- `JSON.stringify` escaping in `LlmPage.ItemJson`: the fixed data holds no character that JSON would escape. The whitespace inside the list-entry template is rendered as single spaces.
- A JSON `null` body is not told apart from other non-payload bodies. On the log page, a `null` list is shown as "nothing found", while the model shows the crash message. In `enviarConsulta`, a `null` body leads to the error paragraph, while the model shows "undefined".
- `LogPage.SearchView`: a 2xx body that is not a list is shown as `Crashed`, without the runtime's own error text, because that text depends on the engine.
- `LlmPage.ResultHtml`: with relevant records, the contract does not spell out the list markup. `LlmPage.LlmPagePanel.AppendItems` states the entries, and `EnviarConsulta` ties the page to this function.
- A 2xx JSON object that is not a record is taken to have none of the record's members, so every member reads as `undefined` (`PersonaRules.MissingRecord`). An object with only some of the members is not modelled.
- The pages' HTML is not part of this model, so every input is taken to be a plain text box that keeps the text written into it. In particular, `PersonaRules.MissingRecordOnUpdate` has the birth date pass as "undefined"; if `fechaNac` is a date input, the browser empties that value and the birth-date rule fails as well.
- `form.reset()`: the delete page's document field is cleared to "", assuming the field has no default value.
- Unicode: character classes, `lower()` and `split()` are ASCII only.
- CORS, `console` logging, and the no-op `removeEventListener` in the edit branch of frontend/app/form.js are not modelled.
- Only one handler runs at a time. No second event interleaves with a handler that is waiting on a request.
