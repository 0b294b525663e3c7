/**
 * The FastAPI back end (backend/server.py): the pydantic request and response
 * records, the server-side copy of the engine, `calculate_roi`, and how the two
 * endpoints turn its outcome and the outcome of the e-mail into a response.
 */
module RoiServer {
  import opened Basics

  /** `ROICalculationInput`: integer fields, two float conversion rates, three optional fields. */
  datatype CalculationInput = CalculationInput(
    consultasMensuales: int,
    porcentajeAutomatizableChatbot: int,
    tiempoRespuestaManual: int,
    horasMensualesCrm: int,
    porcentajeAutomatizableCrm: int,
    personasInvolucradas: int,
    costoHorarioEmpleado: int,
    costoLicenciaAnual: int,
    costoImplementacion: int,
    valorTicketPromedio: Option<int>,
    tasaConversionActual: Option<real>,
    tasaConversionEsperada: Option<real>)

  /** The field defaults of `ROICalculationInput`. */
  const DefaultInput := CalculationInput(500, 70, 4, 120, 40, 3, 2000, 400000, 1000000, None, None, None)

  /** `ROICalculationOutput` */
  datatype CalculationOutput = CalculationOutput(
    ahorroTiempoMensualChatbot: real,
    ahorroEconomicoAnualChatbot: real,
    ahorroTiempoAnualCrm: real,
    ahorroEconomicoAnualCrm: real,
    ahorroTotalAnual: real,
    inversionTotal: real,
    roiPorcentaje: real,
    ingresosAdicionalesEstimados: Option<real>)

  /** The one exception `calculate_roi` can raise. */
  datatype CalculationError = ZeroDivisionError

  /** Python truthiness of an optional number: `None` and `0` are falsy. */
  predicate TruthyInt(x: Option<int>) { x.Some? && x.value != 0 }

  predicate TruthyFloat(x: Option<real>) { x.Some? && x.value != 0.0 }

  /** `all([valor_ticket_promedio, tasa_conversion_actual, tasa_conversion_esperada])` */
  predicate RevenueGateOpen(input: CalculationInput)
  {
    TruthyInt(input.valorTicketPromedio) && TruthyFloat(input.tasaConversionActual) && TruthyFloat(input.tasaConversionEsperada)
  }

  function InversionTotal(input: CalculationInput): int
  {
    input.costoLicenciaAnual + input.costoImplementacion
  }

  /**
   * `calculate_roi`. Python's `/` is true division, exact here; dividing by an
   * investment of zero raises `ZeroDivisionError`.
   */
  function CalculateRoi(input: CalculationInput): (r: Result<CalculationOutput, CalculationError>)
    ensures r.Err? <==> InversionTotal(input) == 0
    ensures r.Ok? ==> var o := r.value;
      && o.ahorroTiempoMensualChatbot * 6000.0
         == (input.consultasMensuales * input.porcentajeAutomatizableChatbot * input.tiempoRespuestaManual) as real
      && o.ahorroEconomicoAnualChatbot == o.ahorroTiempoMensualChatbot * 12.0 * input.costoHorarioEmpleado as real
      && o.ahorroTiempoAnualCrm * 100.0
         == (12 * input.horasMensualesCrm * input.porcentajeAutomatizableCrm * input.personasInvolucradas) as real
      && o.ahorroEconomicoAnualCrm == o.ahorroTiempoAnualCrm * input.costoHorarioEmpleado as real
      && o.ahorroTotalAnual == o.ahorroEconomicoAnualChatbot + o.ahorroEconomicoAnualCrm
      && o.inversionTotal == InversionTotal(input) as real
      && o.roiPorcentaje * o.inversionTotal == (o.ahorroTotalAnual - o.inversionTotal) * 100.0
      && (o.ingresosAdicionalesEstimados.Some? <==> RevenueGateOpen(input))
      && (o.ingresosAdicionalesEstimados.Some? ==>
            o.ingresosAdicionalesEstimados.value * 100.0
            == 12.0 * input.consultasMensuales as real
               * (input.tasaConversionEsperada.value - input.tasaConversionActual.value)
               * input.valorTicketPromedio.value as real)
  {
    var consultasAutomatizables := input.consultasMensuales as real * (input.porcentajeAutomatizableChatbot as real / 100.0);
    var tiempoAhorradoMensualChatbot := (consultasAutomatizables * input.tiempoRespuestaManual as real) / 60.0;
    var ahorroEconomicoAnualChatbot := tiempoAhorradoMensualChatbot * 12.0 * input.costoHorarioEmpleado as real;
    var tiempoAhorradoAnualCrm :=
      ((input.horasMensualesCrm * 12 * input.porcentajeAutomatizableCrm) as real / 100.0) * input.personasInvolucradas as real;
    var ahorroEconomicoAnualCrm := tiempoAhorradoAnualCrm * input.costoHorarioEmpleado as real;
    var ahorroTotalAnual := ahorroEconomicoAnualChatbot + ahorroEconomicoAnualCrm;
    var inversionTotal := input.costoLicenciaAnual + input.costoImplementacion;
    if inversionTotal == 0 then Err(ZeroDivisionError)
    else
      var roiPorcentaje := ((ahorroTotalAnual - inversionTotal as real) / inversionTotal as real) * 100.0;
      var ingresosAdicionales :=
        if RevenueGateOpen(input) then
          var consultasAnuales := input.consultasMensuales * 12;
          var ventasActuales := consultasAnuales as real * (input.tasaConversionActual.value / 100.0);
          var ventasEsperadas := consultasAnuales as real * (input.tasaConversionEsperada.value / 100.0);
          var ventasAdicionales := ventasEsperadas - ventasActuales;
          Some(ventasAdicionales * input.valorTicketPromedio.value as real)
        else None;
      Ok(CalculationOutput(
        tiempoAhorradoMensualChatbot, ahorroEconomicoAnualChatbot,
        tiempoAhorradoAnualCrm, ahorroEconomicoAnualCrm,
        ahorroTotalAnual, inversionTotal as real, roiPorcentaje, ingresosAdicionales))
  }

  /** The default request: 1400000 invested, 4016000 saved a year, an ROI of 1308/7 percent. */
  lemma DefaultInputResult()
    ensures CalculateRoi(DefaultInput) == Ok(CalculationOutput(
      70.0 / 3.0, 560000.0, 1728.0, 3456000.0, 4016000.0, 1400000.0, 1308.0 / 7.0, None))
  {
    var o := CalculateRoi(DefaultInput).value;
    assert o.ahorroTiempoMensualChatbot * 6000.0 == 140000.0;
    assert o.ahorroTiempoAnualCrm * 100.0 == 172800.0;
    assert o.roiPorcentaje * 1400000.0 == 261600000.0;
  }

  /** What an endpoint sends: a JSON body with status and message, or an `HTTPException`. */
  datatype ApiResponse = Success(message: string) | HttpError(statusCode: int, detail: string)

  /** `POST /api/calculate-roi`: the result is computed and not returned; a raise becomes HTTP 500. */
  function CalculateEndpoint(input: CalculationInput): (resp: ApiResponse)
    ensures resp.HttpError? <==> InversionTotal(input) == 0
    ensures resp.HttpError? ==> resp == HttpError(500, "Error en el cálculo")
    ensures resp.Success? ==> resp.message == "Cálculo realizado correctamente"
  {
    match CalculateRoi(input)
    case Ok(_) => Success("Cálculo realizado correctamente")
    case Err(_) => HttpError(500, "Error en el cálculo")
  }

  /**
   * `POST /api/submit-roi`, given whether `send_roi_email` returned True and
   * whether the database insert completed. The `HTTPException` raised for a
   * failed e-mail is itself caught by the handler's `except Exception`, so the
   * client sees the generic detail for it too.
   */
  function SubmitEndpoint(emailSent: bool, stored: bool): (resp: ApiResponse)
    ensures resp.Success? <==> emailSent && stored
    ensures resp.HttpError? ==> resp == HttpError(500, "Error procesando la solicitud")
    ensures resp.Success? ==> resp.message == "Información enviada correctamente"
  {
    if !emailSent then
      // raise HTTPException(500, "Error enviando el email"), caught below
      HttpError(500, "Error procesando la solicitud")
    else if !stored then
      HttpError(500, "Error procesando la solicitud")
    else
      Success("Información enviada correctamente")
  }
}
