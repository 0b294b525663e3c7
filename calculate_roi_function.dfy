/**
 * functions/api/calculate-roi.js: the Workers copy of the engine behind
 * `POST /api/calculate-roi`. It validates two fields, computes the result
 * inline and answers without it.
 */
module CalculateRoiFunction {
  import opened Basics
  import opened JsValues
  import opened RoiWire
  import RoiApp

  /** An incoming request; `body` is `None` when `request.json()` throws or yields `null`. */
  datatype Request = Request(httpMethod: string, body: Option<CalculationInput>)

  /** The number JavaScript arithmetic reads from a present member: `null` converts to 0. */
  function ToNumber(v: JsonNumber): real
    requires !v.Missing?
  {
    if v.Null? then 0.0 else v.n
  }

  /** Whether some member the arithmetic reads is absent, which turns part of the result into NaN. */
  predicate ReadsMissing(input: CalculationInput)
  {
    || input.consultasMensuales.Missing? || input.porcentajeAutomatizableChatbot.Missing?
    || input.tiempoRespuestaManual.Missing? || input.horasMensualesCrm.Missing?
    || input.porcentajeAutomatizableCrm.Missing? || input.personasInvolucradas.Missing?
    || input.costoHorarioEmpleado.Missing? || input.costoLicenciaAnual.Missing?
    || input.costoImplementacion.Missing?
  }

  /** The truthiness guard of the additional-revenue estimate. */
  predicate RevenueGateOpen(input: CalculationInput)
  {
    Truthy(input.valorTicketPromedio) && Truthy(input.tasaConversionActual) && Truthy(input.tasaConversionEsperada)
  }

  /**
   * The inline computation and its `result` object; `None` stands for a result
   * with NaN in it, which arises exactly when a member it reads is absent.
   */
  function Compute(input: CalculationInput): (r: Option<RoiApp.RoiResult>)
    ensures r.None? <==> ReadsMissing(input)
    ensures r.Some? ==> var o := r.value;
      && o.ahorroTotalAnual == o.ahorroEconomicoAnualChatbot + o.ahorroEconomicoAnualCrm
      && o.inversionTotal == ToNumber(input.costoLicenciaAnual) + ToNumber(input.costoImplementacion)
      && (o.roiPorcentaje.Finite? <==> o.inversionTotal != 0.0)
      && (o.roiPorcentaje.Finite? ==> o.roiPorcentaje.value * o.inversionTotal == (o.ahorroTotalAnual - o.inversionTotal) * 100.0)
      && (o.ingresosAdicionalesEstimados.Some? <==> RevenueGateOpen(input))
  {
    if ReadsMissing(input) then None
    else
      var consultasAutomatizables := ToNumber(input.consultasMensuales) * (ToNumber(input.porcentajeAutomatizableChatbot) / 100.0);
      var tiempoAhorradoMensualChatbot := (consultasAutomatizables * ToNumber(input.tiempoRespuestaManual)) / 60.0;
      var ahorroEconomicoAnualChatbot := tiempoAhorradoMensualChatbot * 12.0 * ToNumber(input.costoHorarioEmpleado);
      var tiempoAhorradoAnualCrm :=
        (ToNumber(input.horasMensualesCrm) * 12.0 * ToNumber(input.porcentajeAutomatizableCrm) / 100.0) * ToNumber(input.personasInvolucradas);
      var ahorroEconomicoAnualCrm := tiempoAhorradoAnualCrm * ToNumber(input.costoHorarioEmpleado);
      var ahorroTotalAnual := ahorroEconomicoAnualChatbot + ahorroEconomicoAnualCrm;
      var inversionTotal := ToNumber(input.costoLicenciaAnual) + ToNumber(input.costoImplementacion);
      var roiPorcentaje := Scale(Divide(ahorroTotalAnual - inversionTotal, inversionTotal), 100.0);
      var ingresosAdicionales :=
        if RevenueGateOpen(input) then
          var consultasAnuales := ToNumber(input.consultasMensuales) * 12.0;
          var ventasActuales := consultasAnuales * (input.tasaConversionActual.n / 100.0);
          var ventasEsperadas := consultasAnuales * (input.tasaConversionEsperada.n / 100.0);
          var ventasAdicionales := ventasEsperadas - ventasActuales;
          Some(ventasAdicionales * input.valorTicketPromedio.n)
        else None;
      Some(RoiApp.RoiResult(
        tiempoAhorradoMensualChatbot, ahorroEconomicoAnualChatbot,
        tiempoAhorradoAnualCrm, ahorroEconomicoAnualCrm,
        ahorroTotalAnual, inversionTotal, roiPorcentaje, ingresosAdicionales))
  }

  /** The required-data check: only these two members are tested, for truthiness. */
  predicate HasRequiredData(input: CalculationInput)
  {
    Truthy(input.consultasMensuales) && Truthy(input.costoHorarioEmpleado)
  }

  /**
   * The `fetch` handler. Arithmetic on JavaScript numbers never throws, so
   * every POST with a parsed body that passes the check is answered with
   * success, whatever the result is; the result itself is never sent.
   */
  function HandleRequest(req: Request): (resp: Response)
    ensures req.httpMethod != "POST" ==> resp == MethodNotAllowed
    ensures req.httpMethod == "POST" && req.body.None? ==> resp == InternalServerError
    ensures req.httpMethod == "POST" && req.body.Some? ==>
              (resp.status == 400 <==> !HasRequiredData(req.body.value))
    ensures resp.status == 400 ==> resp.body == Text("Missing required calculation data")
    // success means POST, a body, and a nonzero number of inquiries and hourly cost
    ensures resp.status == 200 <==> req.httpMethod == "POST" && req.body.Some? && HasRequiredData(req.body.value)
    ensures resp.status == 200 ==>
              && req.body.value.consultasMensuales.Number? && req.body.value.consultasMensuales.n != 0.0
              && req.body.value.costoHorarioEmpleado.Number? && req.body.value.costoHorarioEmpleado.n != 0.0
              && resp.body == Json("success", "Cálculo realizado correctamente")
  {
    if req.httpMethod != "POST" then MethodNotAllowed
    else if req.body.None? then InternalServerError
    else
      var inputData := req.body.value;
      if !HasRequiredData(inputData) then Response(400, Text("Missing required calculation data"))
      else
        var result := Compute(inputData);
        Response(200, Json("success", "Cálculo realizado correctamente"))
  }

  /** A zero number of inquiries is refused like a missing one, even with every other member present. */
  lemma ZeroInquiriesRefused(input: CalculationInput)
    requires input.consultasMensuales == Number(0.0)
    ensures HandleRequest(Request("POST", Some(input))).status == 400
  {
  }
}
