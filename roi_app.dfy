/**
 * The React front end (frontend/src/App.js): the client-side copy of the ROI
 * engine, `calculateROI`, and the component state its event handlers update.
 */
module RoiApp {
  import opened Basics
  import opened JsValues

  /** The value held by one number input: `''` once cleared, otherwise `Number(value)`. */
  datatype FormValue = Blank | Num(n: real)

  /** JavaScript truthiness of a form value: `''` and `0` are falsy. */
  predicate Truthy(v: FormValue)
  {
    v.Num? && v.n != 0.0
  }

  /** The number JavaScript arithmetic reads from a form value: `''` converts to 0. */
  function ToNumber(v: FormValue): real
  {
    if v.Blank? then 0.0 else v.n
  }

  /** The `name` attributes of the twelve number inputs. */
  datatype FieldName =
    | ConsultasMensuales | PorcentajeAutomatizableChatbot | TiempoRespuestaManual
    | HorasMensualesCrm | PorcentajeAutomatizableCrm | PersonasInvolucradas
    | CostoHorarioEmpleado | CostoLicenciaAnual | CostoImplementacion
    | ValorTicketPromedio | TasaConversionActual | TasaConversionEsperada

  /** The `calculationData` state object. */
  datatype CalculationData = CalculationData(
    consultasMensuales: FormValue,
    porcentajeAutomatizableChatbot: FormValue,
    tiempoRespuestaManual: FormValue,
    horasMensualesCrm: FormValue,
    porcentajeAutomatizableCrm: FormValue,
    personasInvolucradas: FormValue,
    costoHorarioEmpleado: FormValue,
    costoLicenciaAnual: FormValue,
    costoImplementacion: FormValue,
    valorTicketPromedio: FormValue,
    tasaConversionActual: FormValue,
    tasaConversionEsperada: FormValue)
  {
    /** `data[name]` */
    function Get(name: FieldName): FormValue
    {
      match name
      case ConsultasMensuales => consultasMensuales
      case PorcentajeAutomatizableChatbot => porcentajeAutomatizableChatbot
      case TiempoRespuestaManual => tiempoRespuestaManual
      case HorasMensualesCrm => horasMensualesCrm
      case PorcentajeAutomatizableCrm => porcentajeAutomatizableCrm
      case PersonasInvolucradas => personasInvolucradas
      case CostoHorarioEmpleado => costoHorarioEmpleado
      case CostoLicenciaAnual => costoLicenciaAnual
      case CostoImplementacion => costoImplementacion
      case ValorTicketPromedio => valorTicketPromedio
      case TasaConversionActual => tasaConversionActual
      case TasaConversionEsperada => tasaConversionEsperada
    }

    /** `{ ...data, [name]: v }`: the named field replaced, every other field kept. */
    function With(name: FieldName, v: FormValue): (d: CalculationData)
      ensures d.Get(name) == v
      ensures forall other :: other != name ==> d.Get(other) == Get(other)
    {
      match name
      case ConsultasMensuales => this.(consultasMensuales := v)
      case PorcentajeAutomatizableChatbot => this.(porcentajeAutomatizableChatbot := v)
      case TiempoRespuestaManual => this.(tiempoRespuestaManual := v)
      case HorasMensualesCrm => this.(horasMensualesCrm := v)
      case PorcentajeAutomatizableCrm => this.(porcentajeAutomatizableCrm := v)
      case PersonasInvolucradas => this.(personasInvolucradas := v)
      case CostoHorarioEmpleado => this.(costoHorarioEmpleado := v)
      case CostoLicenciaAnual => this.(costoLicenciaAnual := v)
      case CostoImplementacion => this.(costoImplementacion := v)
      case ValorTicketPromedio => this.(valorTicketPromedio := v)
      case TasaConversionActual => this.(tasaConversionActual := v)
      case TasaConversionEsperada => this.(tasaConversionEsperada := v)
    }
  }

  /** The form's initial values; the three optional inputs start empty. */
  const InitialCalculationData := CalculationData(
    Num(500.0), Num(70.0), Num(4.0),
    Num(120.0), Num(40.0), Num(3.0),
    Num(2000.0), Num(400000.0), Num(1000000.0),
    Blank, Blank, Blank)

  /**
   * The object `calculateROI` returns. Hours and money are exact; the ROI
   * percentage is a JavaScript number because the investment may be zero.
   */
  datatype RoiResult = RoiResult(
    ahorroTiempoMensualChatbot: real,
    ahorroEconomicoAnualChatbot: real,
    ahorroTiempoAnualCrm: real,
    ahorroEconomicoAnualCrm: real,
    ahorroTotalAnual: real,
    inversionTotal: real,
    roiPorcentaje: JsNumber,
    ingresosAdicionalesEstimados: Option<real>)

  /** Whether all three optional inputs are truthy, the guard of the additional-revenue estimate. */
  predicate RevenueGateOpen(data: CalculationData)
  {
    Truthy(data.valorTicketPromedio) && Truthy(data.tasaConversionActual) && Truthy(data.tasaConversionEsperada)
  }

  /**
   * `calculateROI`. Percentages are out of 100, response times in minutes,
   * CRM hours per month; savings are per year.
   */
  function CalculateRoi(data: CalculationData): (r: RoiResult)
    // automatable share of the monthly inquiries, times minutes each, in hours
    ensures r.ahorroTiempoMensualChatbot * 6000.0
         == ToNumber(data.consultasMensuales) * ToNumber(data.porcentajeAutomatizableChatbot) * ToNumber(data.tiempoRespuestaManual)
    // a year of those hours at the hourly cost
    ensures r.ahorroEconomicoAnualChatbot == r.ahorroTiempoMensualChatbot * 12.0 * ToNumber(data.costoHorarioEmpleado)
    // automatable share of a year of CRM hours, for every person involved
    ensures r.ahorroTiempoAnualCrm * 100.0
         == 12.0 * ToNumber(data.horasMensualesCrm) * ToNumber(data.porcentajeAutomatizableCrm) * ToNumber(data.personasInvolucradas)
    ensures r.ahorroEconomicoAnualCrm == r.ahorroTiempoAnualCrm * ToNumber(data.costoHorarioEmpleado)
    ensures r.ahorroTotalAnual == r.ahorroEconomicoAnualChatbot + r.ahorroEconomicoAnualCrm
    ensures r.inversionTotal == ToNumber(data.costoLicenciaAnual) + ToNumber(data.costoImplementacion)
    // the ROI is finite exactly when something is invested, and is then the net gain per 100 invested
    ensures r.roiPorcentaje.Finite? <==> r.inversionTotal != 0.0
    ensures r.roiPorcentaje.Finite? ==>
              r.roiPorcentaje.value * r.inversionTotal == (r.ahorroTotalAnual - r.inversionTotal) * 100.0
    ensures r.inversionTotal == 0.0 ==> (r.roiPorcentaje == PositiveInfinity <==> r.ahorroTotalAnual > 0.0)
    ensures r.inversionTotal == 0.0 ==> (r.roiPorcentaje == NaN <==> r.ahorroTotalAnual == 0.0)
    // the revenue estimate exists exactly when the gate is open, and is then
    // the extra yearly sales the better conversion rate brings, times the ticket
    ensures r.ingresosAdicionalesEstimados.Some? <==> RevenueGateOpen(data)
    ensures r.ingresosAdicionalesEstimados.Some? ==>
              r.ingresosAdicionalesEstimados.value * 100.0
              == 12.0 * ToNumber(data.consultasMensuales)
                 * (data.tasaConversionEsperada.n - data.tasaConversionActual.n) * data.valorTicketPromedio.n
  {
    var consultasAutomatizables := ToNumber(data.consultasMensuales) * (ToNumber(data.porcentajeAutomatizableChatbot) / 100.0);
    var tiempoAhorradoMensualChatbot := (consultasAutomatizables * ToNumber(data.tiempoRespuestaManual)) / 60.0;
    var ahorroEconomicoAnualChatbot := tiempoAhorradoMensualChatbot * 12.0 * ToNumber(data.costoHorarioEmpleado);
    var tiempoAhorradoAnualCrm :=
      (ToNumber(data.horasMensualesCrm) * 12.0 * ToNumber(data.porcentajeAutomatizableCrm) / 100.0) * ToNumber(data.personasInvolucradas);
    var ahorroEconomicoAnualCrm := tiempoAhorradoAnualCrm * ToNumber(data.costoHorarioEmpleado);
    var ahorroTotalAnual := ahorroEconomicoAnualChatbot + ahorroEconomicoAnualCrm;
    var inversionTotal := ToNumber(data.costoLicenciaAnual) + ToNumber(data.costoImplementacion);
    var roiPorcentaje := Scale(Divide(ahorroTotalAnual - inversionTotal, inversionTotal), 100.0);
    var ingresosAdicionales :=
      if RevenueGateOpen(data) then
        var consultasAnuales := ToNumber(data.consultasMensuales) * 12.0;
        var ventasActuales := consultasAnuales * (data.tasaConversionActual.n / 100.0);
        var ventasEsperadas := consultasAnuales * (data.tasaConversionEsperada.n / 100.0);
        var ventasAdicionales := ventasEsperadas - ventasActuales;
        Some(ventasAdicionales * data.valorTicketPromedio.n)
      else None;
    RoiResult(tiempoAhorradoMensualChatbot, ahorroEconomicoAnualChatbot,
              tiempoAhorradoAnualCrm, ahorroEconomicoAnualCrm,
              ahorroTotalAnual, inversionTotal, roiPorcentaje, ingresosAdicionales)
  }

  /** With a positive investment, the ROI is positive, zero or negative as the savings exceed, meet or fall short of it. */
  lemma RoiSign(data: CalculationData)
    requires ToNumber(data.costoLicenciaAnual) + ToNumber(data.costoImplementacion) > 0.0
    ensures var r := CalculateRoi(data);
      && r.roiPorcentaje.Finite?
      && (r.roiPorcentaje.value > 0.0 <==> r.ahorroTotalAnual > r.inversionTotal)
      && (r.roiPorcentaje.value == 0.0 <==> r.ahorroTotalAnual == r.inversionTotal)
      && (r.roiPorcentaje.value < 0.0 <==> r.ahorroTotalAnual < r.inversionTotal)
  {
    var r := CalculateRoi(data);
    var roi, gain, inv := r.roiPorcentaje.value, r.ahorroTotalAnual - r.inversionTotal, r.inversionTotal;
    assert roi * inv == gain * 100.0;
    SignOfQuotient(roi, gain * 100.0, inv);
  }

  /** If `q * d == n` with `d` positive, then `q` has the sign of `n`. */
  lemma SignOfQuotient(q: real, n: real, d: real)
    requires d > 0.0 && q * d == n
    ensures (q > 0.0 <==> n > 0.0) && (q == 0.0 <==> n == 0.0) && (q < 0.0 <==> n < 0.0)
  {
  }

  /**
   * Raising the automatable share of inquiries never lowers the chatbot's
   * yearly saving, as long as inquiries, response time and hourly cost are not negative.
   */
  lemma ChatbotSavingMonotone(data: CalculationData, lower: real, higher: real)
    requires lower <= higher
    requires ToNumber(data.consultasMensuales) >= 0.0
    requires ToNumber(data.tiempoRespuestaManual) >= 0.0
    requires ToNumber(data.costoHorarioEmpleado) >= 0.0
    ensures CalculateRoi(data.With(PorcentajeAutomatizableChatbot, Num(lower))).ahorroEconomicoAnualChatbot
         <= CalculateRoi(data.With(PorcentajeAutomatizableChatbot, Num(higher))).ahorroEconomicoAnualChatbot
  {
    var c, t, h := ToNumber(data.consultasMensuales), ToNumber(data.tiempoRespuestaManual), ToNumber(data.costoHorarioEmpleado);
    var k := c * t * h * 12.0 / 6000.0;
    assert k >= 0.0 by {
      NonNegativeProduct(c, t);
      NonNegativeProduct(c * t, h);
    }
    var lo := CalculateRoi(data.With(PorcentajeAutomatizableChatbot, Num(lower)));
    var hi := CalculateRoi(data.With(PorcentajeAutomatizableChatbot, Num(higher)));
    assert lo.ahorroEconomicoAnualChatbot == k * lower;
    assert hi.ahorroEconomicoAnualChatbot == k * higher;
    assert k * lower <= k * higher by {
      assert k * (higher - lower) >= 0.0 by { NonNegativeProduct(k, higher - lower); }
    }
  }

  lemma NonNegativeProduct(a: real, b: real)
    requires a >= 0.0 && b >= 0.0
    ensures a * b >= 0.0
  {
  }

  /** The form's initial values give the figures the page shows before any edit. */
  lemma InitialFormResult()
    ensures var r := CalculateRoi(InitialCalculationData);
      && r.ahorroTiempoMensualChatbot == 70.0 / 3.0
      && r.ahorroEconomicoAnualChatbot == 560000.0
      && r.ahorroTiempoAnualCrm == 1728.0
      && r.ahorroEconomicoAnualCrm == 3456000.0
      && r.ahorroTotalAnual == 4016000.0
      && r.inversionTotal == 1400000.0
      && r.roiPorcentaje == Finite(1308.0 / 7.0)
      && r.ingresosAdicionalesEstimados == None
  {
    var r := CalculateRoi(InitialCalculationData);
    assert r.ahorroTiempoMensualChatbot * 6000.0 == 140000.0;
    assert r.ahorroTiempoAnualCrm * 100.0 == 172800.0;
    assert r.roiPorcentaje.value * 1400000.0 == 261600000.0;
  }

  /** 500 inquiries a month, conversion raised from 2% to 5%, ticket 1000: 180 more sales a year, 180000 more revenue. */
  lemma AdditionalRevenueExample()
    ensures CalculateRoi(InitialCalculationData
              .With(ValorTicketPromedio, Num(1000.0))
              .With(TasaConversionActual, Num(2.0))
              .With(TasaConversionEsperada, Num(5.0))).ingresosAdicionalesEstimados == Some(180000.0)
  {
    var r := CalculateRoi(InitialCalculationData
              .With(ValorTicketPromedio, Num(1000.0))
              .With(TasaConversionActual, Num(2.0))
              .With(TasaConversionEsperada, Num(5.0)));
    assert r.ingresosAdicionalesEstimados.value * 100.0 == 18000000.0;
  }

  /**
   * A zero in any one of the three optional inputs closes the gate, exactly
   * as a cleared input does: `0` is indistinguishable from "not given".
   */
  lemma ZeroIsNotGiven(data: CalculationData, name: FieldName)
    requires name == ValorTicketPromedio || name == TasaConversionActual || name == TasaConversionEsperada
    ensures CalculateRoi(data.With(name, Num(0.0))).ingresosAdicionalesEstimados == None
    ensures CalculateRoi(data.With(name, Blank)).ingresosAdicionalesEstimados == None
  {
    assert !Truthy(data.With(name, Num(0.0)).Get(name));
    assert !Truthy(data.With(name, Blank).Get(name));
  }

  /** The `contactData` state object; the four inputs are text. */
  datatype ContactField = NombreCompleto | Empresa | Telefono | Email

  datatype ContactData = ContactData(nombreCompleto: JsString, empresa: JsString, telefono: JsString, email: JsString)
  {
    function Get(name: ContactField): JsString
    {
      match name
      case NombreCompleto => nombreCompleto
      case Empresa => empresa
      case Telefono => telefono
      case Email => email
    }

    /** `{ ...contactData, [name]: value }` */
    function With(name: ContactField, v: JsString): (d: ContactData)
      ensures d.Get(name) == v
      ensures forall other :: other != name ==> d.Get(other) == Get(other)
    {
      match name
      case NombreCompleto => this.(nombreCompleto := v)
      case Empresa => this.(empresa := v)
      case Telefono => this.(telefono := v)
      case Email => this.(email := v)
    }
  }

  /** `calculation_input` as posted: the form data with the optional inputs passed through `|| null`. */
  datatype SubmittedInput = SubmittedInput(
    consultasMensuales: FormValue,
    porcentajeAutomatizableChatbot: FormValue,
    tiempoRespuestaManual: FormValue,
    horasMensualesCrm: FormValue,
    porcentajeAutomatizableCrm: FormValue,
    personasInvolucradas: FormValue,
    costoHorarioEmpleado: FormValue,
    costoLicenciaAnual: FormValue,
    costoImplementacion: FormValue,
    valorTicketPromedio: Option<real>,
    tasaConversionActual: Option<real>,
    tasaConversionEsperada: Option<real>)

  /** The body posted to `/api/submit-roi`. */
  datatype Submission = Submission(
    calculationInput: SubmittedInput,
    calculationOutput: Option<RoiResult>,
    contactInfo: ContactData)

  /** `v || null` */
  function OrNull(v: FormValue): (o: Option<real>)
    ensures o.Some? <==> Truthy(v)
    ensures o.Some? ==> v == Num(o.value)
  {
    if Truthy(v) then Some(v.n) else None
  }

  /**
   * The payload `handleSubmit` builds: falsy optional inputs become null,
   * everything else is copied, and the stored preview result is sent as it is.
   */
  function SubmissionPayload(data: CalculationData, result: Option<RoiResult>, contact: ContactData): (s: Submission)
    ensures s.calculationInput.valorTicketPromedio.Some? <==> Truthy(data.valorTicketPromedio)
    ensures s.calculationInput.tasaConversionActual.Some? <==> Truthy(data.tasaConversionActual)
    ensures s.calculationInput.tasaConversionEsperada.Some? <==> Truthy(data.tasaConversionEsperada)
    ensures s.calculationInput.valorTicketPromedio.Some? ==> data.valorTicketPromedio == Num(s.calculationInput.valorTicketPromedio.value)
    ensures s.calculationInput.tasaConversionActual.Some? ==> data.tasaConversionActual == Num(s.calculationInput.tasaConversionActual.value)
    ensures s.calculationInput.tasaConversionEsperada.Some? ==> data.tasaConversionEsperada == Num(s.calculationInput.tasaConversionEsperada.value)
    // the nine required inputs are copied as they are
    ensures && s.calculationInput.consultasMensuales == data.consultasMensuales
            && s.calculationInput.porcentajeAutomatizableChatbot == data.porcentajeAutomatizableChatbot
            && s.calculationInput.tiempoRespuestaManual == data.tiempoRespuestaManual
            && s.calculationInput.horasMensualesCrm == data.horasMensualesCrm
            && s.calculationInput.porcentajeAutomatizableCrm == data.porcentajeAutomatizableCrm
            && s.calculationInput.personasInvolucradas == data.personasInvolucradas
            && s.calculationInput.costoHorarioEmpleado == data.costoHorarioEmpleado
            && s.calculationInput.costoLicenciaAnual == data.costoLicenciaAnual
            && s.calculationInput.costoImplementacion == data.costoImplementacion
    ensures s.calculationOutput == result && s.contactInfo == contact
  {
    Submission(
      SubmittedInput(
        data.consultasMensuales, data.porcentajeAutomatizableChatbot, data.tiempoRespuestaManual,
        data.horasMensualesCrm, data.porcentajeAutomatizableCrm, data.personasInvolucradas,
        data.costoHorarioEmpleado, data.costoLicenciaAnual, data.costoImplementacion,
        OrNull(data.valorTicketPromedio), OrNull(data.tasaConversionActual), OrNull(data.tasaConversionEsperada)),
      result,
      contact)
  }

  /** The posted optional inputs are all non-null exactly when the preview computed a revenue estimate. */
  lemma PayloadOptionalsMatchGate(data: CalculationData, contact: ContactData)
    ensures var s := SubmissionPayload(data, Some(CalculateRoi(data)), contact).calculationInput;
      (s.valorTicketPromedio.Some? && s.tasaConversionActual.Some? && s.tasaConversionEsperada.Some?)
      <==> CalculateRoi(data).ingresosAdicionalesEstimados.Some?
  {
  }

  /**
   * The `App` component's state. The calculation form is rendered while
   * `showContactForm` is false, the contact form while it is true, and the
   * confirmation page replaces both once `showConfirmation` is set.
   */
  class RoiForm {
    var calculationData: CalculationData
    var contactData: ContactData
    var showContactForm: bool
    var isSubmitting: bool
    var showConfirmation: bool
    var calculationResult: Option<RoiResult>

    /**
     * While the contact form is shown, the stored result is the preview of the
     * current data (the number inputs are not rendered then), and a
     * submission only ever starts from that form.
     */
    ghost predicate Valid()
      reads this
    {
      && (showContactForm ==> calculationResult == Some(CalculateRoi(calculationData)))
      && (isSubmitting || showConfirmation ==> calculationResult.Some?)
    }

    /** The initial `useState` values. */
    constructor ()
      ensures Valid()
      ensures calculationData == InitialCalculationData
      ensures contactData == ContactData([], [], [], [])
      ensures !showContactForm && !isSubmitting && !showConfirmation
      ensures calculationResult == None
    {
      calculationData := InitialCalculationData;
      contactData := ContactData([], [], [], []);
      showContactForm, isSubmitting, showConfirmation := false, false, false;
      calculationResult := None;
    }

    /** `handleCalculationChange`, fired by a number input of the calculation form. */
    method HandleCalculationChange(name: FieldName, value: FormValue)
      requires Valid() && !showContactForm && !showConfirmation
      modifies this`calculationData
      ensures Valid()
      ensures calculationData == old(calculationData).With(name, value)
    {
      calculationData := calculationData.With(name, value);
    }

    /** `handleContactChange`, fired by a text input of the contact form. */
    method HandleContactChange(name: ContactField, value: JsString)
      requires Valid()
      modifies this`contactData
      ensures Valid()
      ensures contactData == old(contactData).With(name, value)
    {
      contactData := contactData.With(name, value);
    }

    /** `handleCalculate`: store the preview and show the contact form. */
    method HandleCalculate()
      requires Valid()
      modifies this`calculationResult, this`showContactForm
      ensures Valid()
      ensures calculationResult == Some(CalculateRoi(calculationData))
      ensures showContactForm
    {
      calculationResult := Some(CalculateRoi(calculationData));
      showContactForm := true;
    }

    /** The "Volver" button: back to the calculation form, keeping the stored result. */
    method HandleBack()
      requires Valid()
      modifies this`showContactForm
      ensures Valid()
      ensures !showContactForm
    {
      showContactForm := false;
    }

    /**
     * The synchronous part of `handleSubmit`, up to the POST. The browser runs
     * it only from the contact form, with the submit button enabled and the
     * three `required` inputs filled in.
     */
    method BeginSubmit() returns (payload: Submission)
      requires Valid() && showContactForm && !isSubmitting
      requires |contactData.nombreCompleto| > 0 && |contactData.empresa| > 0 && |contactData.email| > 0
      modifies this`isSubmitting
      ensures Valid() && isSubmitting
      ensures payload == SubmissionPayload(calculationData, calculationResult, contactData)
      ensures payload.calculationOutput == Some(CalculateRoi(calculationData))
    {
      var data, result, contact := calculationData, calculationResult, contactData;
      isSubmitting := true;
      payload := SubmissionPayload(data, result, contact);
    }

    /** The rest of `handleSubmit`, once the POST settles: `delivered` is whether it succeeded. */
    method FinishSubmit(delivered: bool)
      requires Valid() && isSubmitting
      modifies this`isSubmitting, this`showConfirmation
      ensures Valid()
      ensures showConfirmation == (old(showConfirmation) || delivered)
      ensures !isSubmitting
    {
      if delivered {
        showConfirmation := true;
      }
      isSubmitting := false;
    }
  }
}
