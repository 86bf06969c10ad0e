/**
 * The client-side persona form rules shared, word for word, by the create /
 * edit page (frontend/app/form.js) and the update page
 * (frontend/app/update.js): reading the inputs into the `formData` object,
 * the eight validation rules with their messages in declaration order, the
 * document-number pattern the lookup pages reuse, and the mapping from the
 * server's vocabulary to the select codes used when a form is prefilled.
 */
module PersonaRules {
  import opened Base
  import opened Strings
  import opened Http

  /** The raw values of the form's inputs: docTipo, doc, primNombre, segNombre, apellidos, fechaNac, genero, email, cel. */
  datatype Inputs = Inputs(
    docTipo: string,
    doc: string,
    primNombre: string,
    segNombre: string,
    apellidos: string,
    fechaNac: string,
    genero: string,
    email: string,
    cel: string)

  /** The `formData` object the pages build and send as the `persona` part. */
  datatype FormData = FormData(
    tipoDocumento: string,
    numeroDocumento: string,
    primerNombre: string,
    segundoNombre: Option<string>,
    apellidos: string,
    fechaNacimiento: string,
    genero: string,
    email: string,
    celular: string)

  /**
   * Reading the inputs: every value is taken as typed (the select codes too),
   * except that an empty middle name becomes `null`.
   */
  function ReadForm(v: Inputs): (d: FormData)
    ensures d.segundoNombre == None <==> v.segNombre == ""
    ensures d.segundoNombre.Some? ==> d.segundoNombre.value == v.segNombre
    ensures d.tipoDocumento == v.docTipo && d.genero == v.genero
    ensures d.numeroDocumento == v.doc && d.email == v.email && d.celular == v.cel
  {
    FormData(v.docTipo, v.doc, v.primNombre, if v.segNombre == "" then None else Some(v.segNombre),
             v.apellidos, v.fechaNac, v.genero, v.email, v.cel)
  }

  /** The largest accepted photo, in bytes. */
  const MaxPhotoBytes: nat := 2 * 1024 * 1024

  /** The validation rules, in the order the pages check them. */
  datatype Rule = DocumentNumber | FirstName | MiddleName | LastNames | BirthDate | Email | Phone | Photo

  /** Position of a rule in the checking order. */
  function Rank(r: Rule): nat
  {
    match r
    case DocumentNumber => 0
    case FirstName => 1
    case MiddleName => 2
    case LastNames => 3
    case BirthDate => 4
    case Email => 5
    case Phone => 6
    case Photo => 7
  }

  /** `/^\d{1,10}$/`: one to ten digits. */
  predicate DocumentNumberOk(s: string) { 1 <= |s| <= 10 && AllDigits(s) }

  /** A required name: present, at most `max` characters, and not `/^\d+$/`. */
  predicate RequiredNameOk(s: string, max: nat) { s != "" && |s| <= max && !IsDigits(s) }

  /** `/^\d{10}$/`: exactly ten digits. */
  predicate PhoneOk(s: string) { |s| == 10 && AllDigits(s) }

  predicate IsLocalChar(c: char) { IsWordChar(c) || c == '.' || c == '-' }
  predicate IsDomainChar(c: char) { IsAsciiLetter(c) || IsDigit(c) || c == '.' || c == '-' }
  predicate AllLocal(s: string) { forall i :: 0 <= i < |s| ==> IsLocalChar(s[i]) }
  predicate AllDomain(s: string) { forall i :: 0 <= i < |s| ==> IsDomainChar(s[i]) }
  predicate AllLetters(s: string) { forall i :: 0 <= i < |s| ==> IsAsciiLetter(s[i]) }

  /**
   * `s` read as `[\w.-]+` `@` `[a-zA-Z\d.-]+` `\.` `[a-zA-Z]{2,}`, with the `@`
   * at `at` and the last dot at `dot`.
   */
  predicate EmailSplitAt(s: string, at: int, dot: int) {
    0 < at < dot < |s| && at + 1 < dot && |s| - dot - 1 >= 2
    && s[at] == '@' && s[dot] == '.'
    && AllLocal(s[..at]) && AllDomain(s[at + 1..dot]) && AllLetters(s[dot + 1..])
  }

  /** What the pattern `/^[\w.-]+@[a-zA-Z\d.-]+\.[a-zA-Z]{2,}$/` accepts. */
  ghost predicate EmailPatternMatches(s: string) {
    exists at, dot :: EmailSplitAt(s, at, dot)
  }

  /** Index of the first `c` in `s`, or `|s|` when there is none. */
  function FirstIndexOf(s: string, c: char): (r: nat)
    ensures r <= |s|
    ensures r < |s| ==> s[r] == c
    ensures forall i :: 0 <= i < r ==> s[i] != c
    decreases |s|
  {
    if |s| == 0 || s[0] == c then 0 else 1 + FirstIndexOf(s[1..], c)
  }

  /** Index of the last `c` in `s`, or `-1` when there is none. */
  function LastIndexOf(s: string, c: char): (r: int)
    ensures -1 <= r < |s|
    ensures r >= 0 ==> s[r] == c
    ensures forall i :: r < i < |s| ==> s[i] != c
    decreases |s|
  {
    if |s| == 0 then -1
    else if s[|s| - 1] == c then |s| - 1
    else LastIndexOf(s[..|s| - 1], c)
  }

  /**
   * The e-mail check without backtracking: since neither side may contain an
   * `@` and the top-level domain may not contain a dot, the only candidate
   * split is at the first `@` and the last dot.
   */
  predicate EmailOk(s: string) {
    EmailSplitAt(s, FirstIndexOf(s, '@'), LastIndexOf(s, '.'))
  }

  /** The checking procedure accepts exactly what the e-mail pattern accepts. */
  lemma EmailOkMatchesPattern(s: string)
    ensures EmailOk(s) <==> EmailPatternMatches(s)
  {
    if EmailPatternMatches(s) {
      var at, dot :| EmailSplitAt(s, at, dot);
      forall i | 0 <= i < at ensures s[i] != '@' {
        assert s[i] == s[..at][i];
      }
      assert FirstIndexOf(s, '@') == at;
      forall i | dot < i < |s| ensures s[i] != '.' {
        assert s[i] == s[dot + 1..][i - dot - 1];
      }
      assert LastIndexOf(s, '.') == dot;
    }
  }

  /** An optional middle name is rejected only when given and too long or all digits. */
  predicate MiddleNameBad(s: Option<string>) {
    s.Some? && s.value != "" && (|s.value| > 30 || IsDigits(s.value))
  }

  /** A chosen photo is rejected when it is larger than the limit. */
  predicate PhotoTooLarge(photo: Option<nat>) { photo.Some? && photo.value > MaxPhotoBytes }

  /** The outcome of the eight checks: `true` where the rule is broken. */
  datatype Verdicts = Verdicts(documentNumber: bool, firstName: bool, middleName: bool, lastNames: bool, birthDate: bool, email: bool, phone: bool, photo: bool)

  function Outcomes(d: FormData, photo: Option<nat>): Verdicts
  {
    Verdicts(!DocumentNumberOk(d.numeroDocumento),
             !RequiredNameOk(d.primerNombre, 30),
             MiddleNameBad(d.segundoNombre),
             !RequiredNameOk(d.apellidos, 60),
             d.fechaNacimiento == "",
             !EmailOk(d.email),
             !PhoneOk(d.celular),
             PhotoTooLarge(photo))
  }

  /** The verdict on one rule. */
  predicate Flag(r: Rule, v: Verdicts)
  {
    match r
    case DocumentNumber => v.documentNumber
    case FirstName => v.firstName
    case MiddleName => v.middleName
    case LastNames => v.lastNames
    case BirthDate => v.birthDate
    case Email => v.email
    case Phone => v.phone
    case Photo => v.photo
  }

  /** Whether the form data (and the chosen photo's size, if any) breaks a rule. */
  predicate Violated(r: Rule, d: FormData, photo: Option<nat>)
  {
    Flag(r, Outcomes(d, photo))
  }

  function Message(r: Rule): string
  {
    match r
    case DocumentNumber => "El número de documento debe ser numérico y no mayor a 10 caracteres"
    case FirstName => "El primer nombre es obligatorio, no debe ser numérico y debe tener máximo 30 caracteres"
    case MiddleName => "El segundo nombre no debe ser numérico y debe tener máximo 30 caracteres"
    case LastNames => "Los apellidos son obligatorios, no deben ser numéricos y deben tener máximo 60 caracteres"
    case BirthDate => "La fecha de nacimiento es obligatoria"
    case Email => "El correo electrónico no es válido"
    case Phone => "El número de celular debe tener exactamente 10 dígitos"
    case Photo => "La imagen no debe superar los 2MB"
  }

  /** The rule checked in position `k`. */
  function RuleAt(k: nat): (r: Rule)
    requires k < 8
    ensures Rank(r) == k
  {
    [DocumentNumber, FirstName, MiddleName, LastNames, BirthDate, Email, Phone, Photo][k]
  }

  /** A check's contribution to the error list: its rule when it is broken. */
  function Check(broken: bool, r: Rule): seq<Rule>
  {
    if broken then [r] else []
  }

  /** The broken rules among the first `k` checks, in checking order. */
  function Upto(v: Verdicts, k: nat): seq<Rule>
    requires k <= 8
  {
    if k == 0 then [] else Upto(v, k - 1) + Check(Flag(RuleAt(k - 1), v), RuleAt(k - 1))
  }

  lemma {:induction false} UptoFacts(v: Verdicts, k: nat)
    requires k <= 8
    ensures forall r :: r in Upto(v, k) <==> Rank(r) < k && Flag(r, v)
    ensures forall i, j :: 0 <= i < j < |Upto(v, k)| ==> Rank(Upto(v, k)[i]) < Rank(Upto(v, k)[j])
    ensures forall i :: 0 <= i < |Upto(v, k)| ==> Rank(Upto(v, k)[i]) < k
  {
    if k > 0 {
      UptoFacts(v, k - 1);
      var head, last := Upto(v, k - 1), Check(Flag(RuleAt(k - 1), v), RuleAt(k - 1));
      forall r ensures r in head + last <==> Rank(r) < k && Flag(r, v) {
        if Rank(r) == k - 1 {
          assert r == RuleAt(k - 1);
        }
      }
      forall i, j | 0 <= i < j < |head + last| ensures Rank((head + last)[i]) < Rank((head + last)[j]) {
        if j >= |head| {
          assert (head + last)[j] == RuleAt(k - 1);
          assert (head + last)[i] == head[i];
        }
      }
    }
  }

  /** The violated rules, each checked once, in checking order. */
  function Violations(d: FormData, photo: Option<nat>): seq<Rule>
  {
    Upto(Outcomes(d, photo), 8)
  }

  /**
   * The violations list holds exactly the violated rules, in checking order,
   * hence at most one entry per rule.
   */
  lemma ViolationsFacts(d: FormData, photo: Option<nat>)
    ensures forall r :: r in Violations(d, photo) <==> Violated(r, d, photo)
    ensures forall i, j :: 0 <= i < j < |Violations(d, photo)| ==>
      Rank(Violations(d, photo)[i]) < Rank(Violations(d, photo)[j])
    ensures |Violations(d, photo)| <= 8
  {
    UptoFacts(Outcomes(d, photo), 8);
    RanksBound(Violations(d, photo));
  }

  /** A rank-increasing list of rules has at most eight entries. */
  lemma RanksBound(v: seq<Rule>)
    requires forall i, j :: 0 <= i < j < |v| ==> Rank(v[i]) < Rank(v[j])
    ensures |v| <= 8
  {
    if |v| > 8 {
      RankAtLeastIndex(v, 8);
    }
  }

  lemma {:induction false} RankAtLeastIndex(v: seq<Rule>, k: nat)
    requires forall i, j :: 0 <= i < j < |v| ==> Rank(v[i]) < Rank(v[j])
    requires k < |v|
    ensures Rank(v[k]) >= k
  {
    if k > 0 {
      RankAtLeastIndex(v, k - 1);
    }
  }

  /**
   * The checking sequence of the pages: a fresh `errores` list and one push
   * per violated rule, in the fixed order. Each pushed message is represented
   * by its rule; `Message` gives its text.
   */
  method CollectErrors(d: FormData, photo: Option<nat>) returns (errores: seq<Rule>)
    ensures errores == Violations(d, photo)
  {
    errores := [];
    errores := PushIf(errores, !DocumentNumberOk(d.numeroDocumento), DocumentNumber);
    errores := PushIf(errores, !RequiredNameOk(d.primerNombre, 30), FirstName);
    errores := PushIf(errores, MiddleNameBad(d.segundoNombre), MiddleName);
    errores := PushIf(errores, !RequiredNameOk(d.apellidos, 60), LastNames);
    errores := PushIf(errores, d.fechaNacimiento == "", BirthDate);
    errores := PushIf(errores, !EmailOk(d.email), Email);
    errores := PushIf(errores, !PhoneOk(d.celular), Phone);
    errores := PushIf(errores, PhotoTooLarge(photo), Photo);
    UptoUnrolled(Outcomes(d, photo));
  }

  /** The eight checks spelled out one after the other. */
  lemma UptoUnrolled(v: Verdicts)
    ensures Upto(v, 8) == [] + Check(v.documentNumber, DocumentNumber)
      + Check(v.firstName, FirstName)
      + Check(v.middleName, MiddleName)
      + Check(v.lastNames, LastNames)
      + Check(v.birthDate, BirthDate)
      + Check(v.email, Email)
      + Check(v.phone, Phone)
      + Check(v.photo, Photo)
  {
    UptoFirstHalf(v);
    assert Upto(v, 5) == Upto(v, 4) + Check(v.birthDate, BirthDate);
    assert Upto(v, 6) == Upto(v, 5) + Check(v.email, Email);
    assert Upto(v, 7) == Upto(v, 6) + Check(v.phone, Phone);
    assert Upto(v, 8) == Upto(v, 7) + Check(v.photo, Photo);
  }

  lemma UptoFirstHalf(v: Verdicts)
    ensures Upto(v, 4) == [] + Check(v.documentNumber, DocumentNumber)
      + Check(v.firstName, FirstName)
      + Check(v.middleName, MiddleName)
      + Check(v.lastNames, LastNames)
  {
    assert Upto(v, 1) == Upto(v, 0) + Check(v.documentNumber, DocumentNumber);
    assert Upto(v, 2) == Upto(v, 1) + Check(v.firstName, FirstName);
    assert Upto(v, 3) == Upto(v, 2) + Check(v.middleName, MiddleName);
    assert Upto(v, 4) == Upto(v, 3) + Check(v.lastNames, LastNames);
  }

  /** `if (broken) errores.push(message)`. */
  method PushIf(errores: seq<Rule>, broken: bool, r: Rule) returns (next: seq<Rule>)
    ensures next == errores + Check(broken, r)
    ensures broken ==> next[|errores|] == r
    ensures |next| == |errores| + (if broken then 1 else 0)
  {
    next := errores;
    if broken {
      next := next + [r];
    }
  }

  /** The text of the error notice: the header, then one message per line. */
  function FormErrorsText(errores: seq<Rule>): string
  {
    "Errores en el formulario:\n\n" + Join(Messages(errores), "\n")
  }

  /** What a message box or an alert reports: the form's broken rules, or a plain text. */
  datatype Announcement = RuleErrors(errs: seq<Rule>) | Plain(text: string)

  /** The text the user reads. */
  function Render(a: Announcement): string
  {
    match a
    case RuleErrors(errs) => FormErrorsText(errs)
    case Plain(text) => text
  }

  /** The messages of a list of rules, in the same order. */
  function Messages(rs: seq<Rule>): (ms: seq<string>)
    ensures |ms| == |rs|
    ensures forall i :: 0 <= i < |rs| ==> ms[i] == Message(rs[i])
  {
    if rs == [] then [] else [Message(rs[0])] + Messages(rs[1..])
  }

  /** The rendered error notice carries the message of every rule it lists. */
  lemma RenderedErrorsMention(errs: seq<Rule>, k: nat)
    requires k < |errs|
    ensures Contains(Render(RuleErrors(errs)), Message(errs[k]))
  {
    JoinHasPart(Messages(errs), "\n", k);
    ContainsWithin("Errores en el formulario:\n\n", Join(Messages(errs), "\n"), "", Message(errs[k]));
    assert "Errores en el formulario:\n\n" + Join(Messages(errs), "\n") + "" == Render(RuleErrors(errs));
  }

  // ---- Prefilling a form from a server record ----

  /** The select code for the server's document type: "Cédula" is CC, anything else TI. */
  function DocTypeCode(server: string): (code: string)
    ensures code == "CC" <==> server == "Cédula"
    ensures code == "CC" || code == "TI"
  {
    if server == "Cédula" then "CC" else "TI"
  }

  /** The gender select code chosen by the create / edit page; unknown values become NR. */
  function GenderCodeOnForm(server: string): (code: string)
  {
    if server == "Masculino" then "M"
    else if server == "Femenino" then "F"
    else if server == "No binario" then "NB"
    else "NR"
  }

  /** The gender select code chosen by the update page's switch; unknown values keep the initial M. */
  method GenderCodeOnUpdate(server: string) returns (generoValue: string)
    ensures generoValue == UpdateGenderCode(server)
  {
    generoValue := "M";
    if server == "Masculino" {
      generoValue := "M";
    } else if server == "Femenino" {
      generoValue := "F";
    } else if server == "No binario" {
      generoValue := "NB";
    } else if server == "Prefiero no reportar" {
      generoValue := "NR";
    }
  }

  /** The four gender values of the server's vocabulary. */
  const ServerGenders: seq<string> := ["Masculino", "Femenino", "No binario", "Prefiero no reportar"]

  /** The gender code the update page's switch leaves in `generoValue`. */
  function UpdateGenderCode(server: string): string
  {
    if server == "Femenino" then "F"
    else if server == "No binario" then "NB"
    else if server == "Prefiero no reportar" then "NR"
    else "M"
  }

  /**
   * The two pages agree on the four server values and disagree on every
   * other value: the create / edit page shows NR, the update page M.
   */
  lemma GenderCodesCompared(server: string)
    ensures server in ServerGenders ==> GenderCodeOnForm(server) == UpdateGenderCode(server)
    ensures !(server in ServerGenders) ==> GenderCodeOnForm(server) == "NR" && UpdateGenderCode(server) == "M"
  {
  }

  /** The create / edit page's fillForm: the inputs it sets from a loaded record. */
  function PrefillOnForm(p: PersonaJson): (v: Inputs)
    ensures v.segNombre == "" <==> (p.segundoNombre == None || p.segundoNombre == Some(""))
  {
    Inputs(DocTypeCode(p.tipoDocumento), p.numeroDocumento, p.primerNombre,
           if p.segundoNombre.Some? then p.segundoNombre.value else "",
           p.apellidos, p.fechaNacimiento, GenderCodeOnForm(p.genero), p.email, p.celular)
  }

  /** The update page's prefill: the same fields, with its own gender switch. */
  function PrefillOnUpdate(p: PersonaJson): (v: Inputs)
    ensures v.segNombre == "" <==> (p.segundoNombre == None || p.segundoNombre == Some(""))
  {
    Inputs(DocTypeCode(p.tipoDocumento), p.numeroDocumento, p.primerNombre,
           if p.segundoNombre.Some? then p.segundoNombre.value else "",
           p.apellidos, p.fechaNacimiento, UpdateGenderCode(p.genero), p.email, p.celular)
  }

  /**
   * Reading back a prefilled form gives the record's own text fields (a
   * middle name of "" comes back as null) and the select codes in place of
   * the server's vocabulary.
   */
  lemma PrefillReadBack(p: PersonaJson)
    ensures var d := ReadForm(PrefillOnForm(p));
      d.numeroDocumento == p.numeroDocumento && d.primerNombre == p.primerNombre
      && d.apellidos == p.apellidos && d.email == p.email && d.celular == p.celular
      && d.segundoNombre == (if p.segundoNombre == Some("") then None else p.segundoNombre)
      && d.tipoDocumento == DocTypeCode(p.tipoDocumento) && d.genero == GenderCodeOnForm(p.genero)
  {
  }

  // ---- Prefilling from a JSON object that is not a record ----

  /** What an input shows once a missing JSON member (`undefined`) is assigned to it. */
  const UndefinedText := "undefined"

  /** A JSON object without the record's members, read as a record: every member is `undefined`. */
  const MissingRecord := PersonaJson(UndefinedText, UndefinedText, UndefinedText, UndefinedText, None,
                                     UndefinedText, UndefinedText, UndefinedText, UndefinedText, UndefinedText, None)

  /**
   * fillForm on a JSON object without the record's members: the document
   * type, the document number and the three names are set as from
   * `MissingRecord` before building the birth date throws, so the later
   * inputs keep their values.
   */
  function PartialFillOnForm(v: Inputs): (w: Inputs)
    ensures w.docTipo == "TI" && w.doc == UndefinedText && w.primNombre == UndefinedText
    ensures w.segNombre == "" && w.apellidos == UndefinedText
    ensures w.fechaNac == v.fechaNac && w.genero == v.genero && w.email == v.email && w.cel == v.cel
  {
    var full := PrefillOnForm(MissingRecord);
    v.(docTipo := full.docTipo, doc := full.doc, primNombre := full.primNombre,
       segNombre := full.segNombre, apellidos := full.apellidos)
  }

  /** The text "undefined" is a name the rules accept, and not a document number. */
  lemma UndefinedTextChecks()
    ensures !DocumentNumberOk(UndefinedText) && !PhoneOk(UndefinedText) && !EmailOk(UndefinedText)
    ensures RequiredNameOk(UndefinedText, 30) && RequiredNameOk(UndefinedText, 60)
  {
    assert UndefinedText[0] == 'u';
    assert '@' !in UndefinedText;
  }

  /** Form data carrying "undefined" as document number and names breaks only the first of those rules. */
  lemma UndefinedFieldsRules(d: FormData, photo: Option<nat>)
    requires d.numeroDocumento == UndefinedText && d.primerNombre == UndefinedText
    requires d.apellidos == UndefinedText && d.segundoNombre == None
    ensures Violated(DocumentNumber, d, photo)
    ensures !Violated(FirstName, d, photo) && !Violated(MiddleName, d, photo) && !Violated(LastNames, d, photo)
  {
    UndefinedTextChecks();
  }

  /**
   * After the create / edit page filled a non-record, any submit is refused
   * for the document number, while the names pass as the text "undefined".
   */
  lemma PartialFillBreaksDocumentNumber(v: Inputs, photo: Option<nat>)
    ensures var d := ReadForm(PartialFillOnForm(v));
      && DocumentNumber in Violations(d, photo)
      && FirstName !in Violations(d, photo) && MiddleName !in Violations(d, photo)
      && LastNames !in Violations(d, photo)
  {
    var d := ReadForm(PartialFillOnForm(v));
    UndefinedFieldsRules(d, photo);
    ViolationsFacts(d, photo);
  }

  /** The update page's prefill of `MissingRecord`: type TI, gender M, "undefined" elsewhere. */
  lemma MissingRecordPrefill()
    ensures var v := PrefillOnUpdate(MissingRecord);
      && v.docTipo == "TI" && v.genero == "M" && v.segNombre == ""
      && v.doc == UndefinedText && v.primNombre == UndefinedText && v.apellidos == UndefinedText
      && v.fechaNac == UndefinedText && v.email == UndefinedText && v.cel == UndefinedText
  {
    assert UndefinedText != "Cédula" && UndefinedText != "Femenino" && UndefinedText != "No binario"
      && UndefinedText != "Prefiero no reportar" by {
      assert UndefinedText[0] == 'u';
    }
  }

  /**
   * The update page fills a non-record completely; a submit is then refused
   * for the document number, the e-mail and the phone, while the names and
   * the date pass. Every input is taken to keep the text written into it.
   */
  lemma MissingRecordOnUpdate(photo: Option<nat>)
    ensures var d := ReadForm(PrefillOnUpdate(MissingRecord));
      && DocumentNumber in Violations(d, photo) && Email in Violations(d, photo) && Phone in Violations(d, photo)
      && FirstName !in Violations(d, photo) && LastNames !in Violations(d, photo) && BirthDate !in Violations(d, photo)
  {
    MissingRecordPrefill();
    var d := ReadForm(PrefillOnUpdate(MissingRecord));
    UndefinedFieldsRules(d, photo);
    UndefinedContactRules(d, photo);
    ViolationsFacts(d, photo);
  }

  /** Form data carrying "undefined" as birth date, e-mail and phone breaks the e-mail and phone rules only. */
  lemma UndefinedContactRules(d: FormData, photo: Option<nat>)
    requires d.fechaNacimiento == UndefinedText && d.email == UndefinedText && d.celular == UndefinedText
    ensures Violated(Email, d, photo) && Violated(Phone, d, photo) && !Violated(BirthDate, d, photo)
  {
    UndefinedTextChecks();
  }
}
