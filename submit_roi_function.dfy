/**
 * functions/api/submit-roi.js: `POST /api/submit-roi` on Cloudflare Workers.
 * It checks the body, builds and sends the notification e-mail, and, when a
 * KV namespace is bound, stores the submission under a key made of the time
 * and the sanitised company name.
 */
module SubmitRoiFunction {
  import opened Basics
  import opened JsValues
  import opened RoiWire

  /** `contact_info`; a member is `None` when it is absent or `null`. */
  datatype ContactInfo = ContactInfo(
    nombreCompleto: Option<JsString>,
    empresa: Option<JsString>,
    telefono: Option<JsString>,
    email: Option<JsString>)

  /** JavaScript truthiness of a string member: present and not empty. */
  predicate Filled(s: Option<JsString>)
  {
    s.Some? && |s.value| > 0
  }

  /** The posted object; each part is `None` when it is absent or `null`. */
  datatype SubmitBody = SubmitBody(
    calculationInput: Option<CalculationInput>,
    calculationOutput: Option<CalculationOutput>,
    contactInfo: Option<ContactInfo>)

  /** An incoming request; `body` is `None` when `request.json()` throws or yields `null`. */
  datatype Request = Request(httpMethod: string, body: Option<SubmitBody>)

  /** How the MailChannels `fetch` ended: an ok response, a non-ok one, or a thrown error. */
  datatype Delivery = Accepted | Rejected | Unreachable

  const MissingData := Response(400, Text("Missing required data"))
  const MissingContact := Response(400, Text("Missing required contact information"))

  /**
   * The two validation steps, in order: all three parts present, then e-mail,
   * name and company filled in. `None` means the body passed both.
   */
  function Validate(body: SubmitBody): (err: Option<Response>)
    ensures err.None? <==>
              && body.calculationInput.Some? && body.calculationOutput.Some? && body.contactInfo.Some?
              && Filled(body.contactInfo.value.email)
              && Filled(body.contactInfo.value.nombreCompleto)
              && Filled(body.contactInfo.value.empresa)
    // a missing part is reported before anything about the contact is looked at
    ensures (body.calculationInput.None? || body.calculationOutput.None? || body.contactInfo.None?)
              ==> err == Some(MissingData)
    ensures err.Some? && err != Some(MissingData) ==> err == Some(MissingContact)
  {
    if body.calculationInput.None? || body.calculationOutput.None? || body.contactInfo.None? then
      Some(MissingData)
    else
      var contact := body.contactInfo.value;
      if !Filled(contact.email) || !Filled(contact.nombreCompleto) || !Filled(contact.empresa) then
        Some(MissingContact)
      else None
  }

  /** The telephone shown in the e-mail: `telefono || 'No proporcionado'`. */
  function TelefonoShown(contact: ContactInfo): (t: JsString)
    ensures Filled(contact.telefono) ==> t == contact.telefono.value
    ensures !Filled(contact.telefono) ==> t == Ascii("No proporcionado")
    ensures |t| > 0
  {
    if Filled(contact.telefono) then contact.telefono.value else Ascii("No proporcionado")
  }

  /**
   * Whether building the e-mail text throws: it calls `toLocaleString` or
   * `toFixed` on four input members and seven output members, which throws a
   * TypeError on an absent or `null` one. The additional revenue is formatted
   * only when truthy, and the other inputs are interpolated as they are.
   */
  predicate EmailBodyThrows(input: CalculationInput, output: CalculationOutput)
  {
    || !input.consultasMensuales.Number? || !input.costoHorarioEmpleado.Number?
    || !input.costoLicenciaAnual.Number? || !input.costoImplementacion.Number?
    || !output.ahorroTiempoMensualChatbot.Number? || !output.ahorroEconomicoAnualChatbot.Number?
    || !output.ahorroTiempoAnualCrm.Number? || !output.ahorroEconomicoAnualCrm.Number?
    || !output.ahorroTotalAnual.Number? || !output.inversionTotal.Number?
    || !output.roiPorcentaje.Number?
  }

  const Stored := Response(200, Json("success", "Información enviada correctamente"))

  /** Whether the handler gets as far as the KV step: a valid body whose e-mail was built and accepted. */
  predicate ReachesStore(req: Request, delivery: Delivery)
  {
    && req.httpMethod == "POST" && req.body.Some?
    && Validate(req.body.value).None?
    && !EmailBodyThrows(req.body.value.calculationInput.value, req.body.value.calculationOutput.value)
    && delivery == Accepted
  }

  /** The response of the `fetch` handler, given how the e-mail delivery ends. */
  function Outcome(req: Request, delivery: Delivery): (resp: Response)
    ensures req.httpMethod != "POST" ==> resp == MethodNotAllowed
    ensures (req.httpMethod == "POST" && req.body.Some? && Validate(req.body.value).Some?) ==>
              resp == Validate(req.body.value).value
    // a 400 comes from the validation chain and from nothing else
    ensures resp.status == 400 <==> req.httpMethod == "POST" && req.body.Some? && Validate(req.body.value).Some?
    // `request.json()` failing, or reading a member of `null`, lands in the catch block
    ensures req.httpMethod == "POST" && req.body.None? ==> resp == InternalServerError
    // so does a `toLocaleString` / `toFixed` on a member that is not a number
    ensures (&& req.httpMethod == "POST" && req.body.Some? && Validate(req.body.value).None?
             && EmailBodyThrows(req.body.value.calculationInput.value, req.body.value.calculationOutput.value))
              ==> resp == InternalServerError
    // and a `fetch` to MailChannels that throws
    ensures ReachesStore(req, Accepted) && delivery == Unreachable ==> resp == InternalServerError
    ensures resp.status == 200 <==> ReachesStore(req, delivery)
    ensures resp.status == 200 ==> resp == Stored
    ensures ReachesStore(req, Accepted) && delivery == Rejected ==> resp == Response(500, Text("Error sending email"))
    ensures resp.status !in {200, 400, 405} ==> resp.status == 500
  {
    if req.httpMethod != "POST" then MethodNotAllowed
    else if req.body.None? then InternalServerError
    else
      var data := req.body.value;
      match Validate(data)
      case Some(err) => err
      case None =>
        if EmailBodyThrows(data.calculationInput.value, data.calculationOutput.value) then InternalServerError
        else
          match delivery
          case Unreachable => InternalServerError
          case Rejected => Response(500, Text("Error sending email"))
          case Accepted => Stored
  }

  /** The characters `[a-zA-Z0-9]` keeps. */
  predicate IsAlphanumeric(c: CodeUnit)
  {
    ('0' as CodeUnit <= c <= '9' as CodeUnit) || ('A' as CodeUnit <= c <= 'Z' as CodeUnit) || ('a' as CodeUnit <= c <= 'z' as CodeUnit)
  }

  const Underscore: CodeUnit := '_' as CodeUnit

  /**
   * `replace(/[^a-zA-Z0-9]/g, '_')`. Without the `u` flag the pattern sees
   * UTF-16 code units, so a character outside the Basic Multilingual Plane
   * becomes two underscores.
   */
  function Sanitize(s: JsString): (r: JsString)
    ensures |r| == |s|
    ensures forall i :: 0 <= i < |s| ==> (IsAlphanumeric(s[i]) ==> r[i] == s[i])
    ensures forall i :: 0 <= i < |s| ==> (!IsAlphanumeric(s[i]) ==> r[i] == Underscore)
  {
    if s == [] then []
    else [if IsAlphanumeric(s[0]) then s[0] else Underscore] + Sanitize(s[1..])
  }

  /** A sanitised name holds only `[a-zA-Z0-9_]`. */
  lemma SanitizedIsKeySafe(s: JsString)
    ensures forall i :: 0 <= i < |Sanitize(s)| ==> IsAlphanumeric(Sanitize(s)[i]) || Sanitize(s)[i] == Underscore
  {
  }

  /** Sanitising twice is sanitising once. */
  lemma {:induction false} SanitizeIdempotent(s: JsString)
    ensures Sanitize(Sanitize(s)) == Sanitize(s)
  {
    if s != [] {
      SanitizeIdempotent(s[1..]);
      assert Sanitize(s)[1..] == Sanitize(s[1..]);
    }
  }

  /** `` `roi_${timestamp}_${empresa.replace(...)}` `` */
  function StorageKey(timestamp: JsString, empresa: JsString): (key: JsString)
    ensures |key| == |timestamp| + |empresa| + 5
    ensures key[..4] == Ascii("roi_")
    ensures key[4..4 + |timestamp|] == timestamp
    ensures key[4 + |timestamp|] == Underscore
    ensures key[5 + |timestamp|..] == Sanitize(empresa)
  {
    Ascii("roi_") + timestamp + [Underscore] + Sanitize(empresa)
  }

  /**
   * Timestamps of one length (`toISOString` always gives 24 code units in
   * these years) are told apart by the key, and so are sanitised names.
   */
  lemma {:induction false} StorageKeyDeterminesParts(t1: JsString, e1: JsString, t2: JsString, e2: JsString)
    requires |t1| == |t2|
    requires StorageKey(t1, e1) == StorageKey(t2, e2)
    ensures t1 == t2 && Sanitize(e1) == Sanitize(e2)
  {
    var k := StorageKey(t1, e1);
    assert t1 == k[4..4 + |t1|];
    assert Sanitize(e1) == k[5 + |t1|..];
  }

  /** Two companies whose names differ only outside `[a-zA-Z0-9]` get the same key at the same instant. */
  lemma DistinctCompaniesShareKey(timestamp: JsString)
    ensures Ascii("A&B") != Ascii("A B")
    ensures StorageKey(timestamp, Ascii("A&B")) == StorageKey(timestamp, Ascii("A B"))
  {
    var amp, space := Ascii("A&B"), Ascii("A B");
    assert amp[1] != space[1];
    assert Sanitize(amp) == Sanitize(space);
  }

  /** The value written: `{ ...data, timestamp }` before `JSON.stringify`. */
  datatype StoredRecord = StoredRecord(data: SubmitBody, timestamp: JsString)

  /** The `ROI_CALCULATIONS` KV namespace. */
  class KvNamespace {
    var entries: map<JsString, StoredRecord>

    constructor ()
      ensures entries == map[]
    {
      entries := map[];
    }

    /** `put`: bind `key` to `value`, replacing what was there. */
    method Put(key: JsString, value: StoredRecord)
      modifies this
      ensures entries == old(entries)[key := value]
    {
      entries := entries[key := value];
    }
  }

  /**
   * The `fetch` handler. `kv` is `env.ROI_CALCULATIONS` (`null` when unbound),
   * `delivery` how the e-mail request ends, and `timestamp` the value of
   * `new Date().toISOString()` at the KV step.
   */
  method HandleRequest(req: Request, kv: KvNamespace?, delivery: Delivery, timestamp: JsString) returns (resp: Response)
    modifies kv
    ensures resp == Outcome(req, delivery)
    ensures kv != null && ReachesStore(req, delivery) ==>
              kv.entries == old(kv.entries)[StorageKey(timestamp, req.body.value.contactInfo.value.empresa.value)
                                            := StoredRecord(req.body.value, timestamp)]
    ensures kv != null && !ReachesStore(req, delivery) ==> kv.entries == old(kv.entries)
  {
    resp := Outcome(req, delivery);
    if kv != null && ReachesStore(req, delivery) {
      var data := req.body.value;
      var key := StorageKey(timestamp, data.contactInfo.value.empresa.value);
      kv.Put(key, StoredRecord(data, timestamp));
    }
  }
}
