/**
 * The engine exists three times: `calculateROI` in frontend/src/App.js,
 * `calculate_roi` in backend/server.py and the inline block of
 * functions/api/calculate-roi.js. These lemmas show that, given the same
 * numbers with every member present, the three compute the same fields
 * except at zero investment. The endpoints around them differ further: the
 * Workers function refuses a zero number of inquiries or hourly cost, which
 * the server computes with.
 */
module CopiesAgree {
  import opened Basics
  import opened JsValues
  import RoiApp
  import RoiServer
  import RoiWire
  import CalculateRoiFunction

  function FormNumber(x: int): RoiApp.FormValue { RoiApp.Num(x as real) }

  function FormOptional(x: Option<real>): RoiApp.FormValue
  {
    if x.Some? then RoiApp.Num(x.value) else RoiApp.Blank
  }

  /** The form data holding the numbers of a server request. */
  function FormOf(input: RoiServer.CalculationInput): RoiApp.CalculationData
  {
    RoiApp.CalculationData(
      FormNumber(input.consultasMensuales), FormNumber(input.porcentajeAutomatizableChatbot),
      FormNumber(input.tiempoRespuestaManual), FormNumber(input.horasMensualesCrm),
      FormNumber(input.porcentajeAutomatizableCrm), FormNumber(input.personasInvolucradas),
      FormNumber(input.costoHorarioEmpleado), FormNumber(input.costoLicenciaAnual),
      FormNumber(input.costoImplementacion),
      FormOptional(if input.valorTicketPromedio.Some? then Some(input.valorTicketPromedio.value as real) else None),
      FormOptional(input.tasaConversionActual), FormOptional(input.tasaConversionEsperada))
  }

  /** A server result as the JavaScript result object: its ROI is always finite. */
  function AsJsResult(o: RoiServer.CalculationOutput): RoiApp.RoiResult
  {
    RoiApp.RoiResult(
      o.ahorroTiempoMensualChatbot, o.ahorroEconomicoAnualChatbot,
      o.ahorroTiempoAnualCrm, o.ahorroEconomicoAnualCrm,
      o.ahorroTotalAnual, o.inversionTotal, Finite(o.roiPorcentaje), o.ingresosAdicionalesEstimados)
  }

  /**
   * `calculate_roi` and `calculateROI` agree: the server raises exactly where
   * the browser gets a non-finite ROI, and otherwise every field is equal,
   * including whether the revenue estimate is there.
   */
  lemma ServerAgreesWithApp(input: RoiServer.CalculationInput)
    ensures RoiServer.CalculateRoi(input).Err? <==> !RoiApp.CalculateRoi(FormOf(input)).roiPorcentaje.Finite?
    ensures RoiServer.CalculateRoi(input).Ok? ==>
              AsJsResult(RoiServer.CalculateRoi(input).value) == RoiApp.CalculateRoi(FormOf(input))
  {
    var data := FormOf(input);
    var app := RoiApp.CalculateRoi(data);
    // integer products computed by Python before the first division
    CastProduct(input.horasMensualesCrm * 12, input.porcentajeAutomatizableCrm);
    CastProduct(input.horasMensualesCrm, 12);
    CastProduct(input.consultasMensuales, 12);
    assert RoiServer.RevenueGateOpen(input) <==> RoiApp.RevenueGateOpen(data);
    if RoiServer.CalculateRoi(input).Ok? {
      var o := RoiServer.CalculateRoi(input).value;
      assert o.ahorroTiempoAnualCrm == app.ahorroTiempoAnualCrm;
      if RoiServer.RevenueGateOpen(input) {
        assert data.valorTicketPromedio.n == input.valorTicketPromedio.value as real;
        assert o.ingresosAdicionalesEstimados.value == app.ingresosAdicionalesEstimados.value;
      }
    }
  }

  lemma CastProduct(a: int, b: int)
    ensures (a * b) as real == a as real * b as real
  {
  }

  /** The form data holding the members of a posted body (`undefined` and `null` as a cleared input). */
  function FormOfJson(v: RoiWire.JsonNumber): RoiApp.FormValue
  {
    if v.Number? then RoiApp.Num(v.n) else RoiApp.Blank
  }

  function FormOfWire(input: RoiWire.CalculationInput): RoiApp.CalculationData
  {
    RoiApp.CalculationData(
      FormOfJson(input.consultasMensuales), FormOfJson(input.porcentajeAutomatizableChatbot),
      FormOfJson(input.tiempoRespuestaManual), FormOfJson(input.horasMensualesCrm),
      FormOfJson(input.porcentajeAutomatizableCrm), FormOfJson(input.personasInvolucradas),
      FormOfJson(input.costoHorarioEmpleado), FormOfJson(input.costoLicenciaAnual),
      FormOfJson(input.costoImplementacion), FormOfJson(input.valorTicketPromedio),
      FormOfJson(input.tasaConversionActual), FormOfJson(input.tasaConversionEsperada))
  }

  /**
   * The Workers copy computes exactly `calculateROI` whenever no member it
   * reads is absent; `null` behaves as a cleared input, as 0.
   */
  lemma WorkerAgreesWithApp(input: RoiWire.CalculationInput)
    requires !CalculateRoiFunction.ReadsMissing(input)
    ensures CalculateRoiFunction.Compute(input) == Some(RoiApp.CalculateRoi(FormOfWire(input)))
  {
    var w, a := CalculateRoiFunction.Compute(input).value, RoiApp.CalculateRoi(FormOfWire(input));
    WorkerSavingsAgree(input);
    WorkerRevenueAgrees(input);
    WorkerRoiAgrees(input);
    assert w == RoiApp.RoiResult(
      a.ahorroTiempoMensualChatbot, a.ahorroEconomicoAnualChatbot, a.ahorroTiempoAnualCrm, a.ahorroEconomicoAnualCrm,
      a.ahorroTotalAnual, a.inversionTotal, a.roiPorcentaje, a.ingresosAdicionalesEstimados);
  }

  /** Same savings and investment, so the same ROI, finite or not. */
  lemma WorkerRoiAgrees(input: RoiWire.CalculationInput)
    requires !CalculateRoiFunction.ReadsMissing(input)
    ensures CalculateRoiFunction.Compute(input).value.roiPorcentaje == RoiApp.CalculateRoi(FormOfWire(input)).roiPorcentaje
  {
    WorkerSavingsAgree(input);
  }

  /** The hours, savings and investment of the Workers copy are those of `calculateROI`. */
  lemma WorkerSavingsAgree(input: RoiWire.CalculationInput)
    requires !CalculateRoiFunction.ReadsMissing(input)
    ensures var w, a := CalculateRoiFunction.Compute(input).value, RoiApp.CalculateRoi(FormOfWire(input));
      && w.ahorroTiempoMensualChatbot == a.ahorroTiempoMensualChatbot
      && w.ahorroEconomicoAnualChatbot == a.ahorroEconomicoAnualChatbot
      && w.ahorroTiempoAnualCrm == a.ahorroTiempoAnualCrm
      && w.ahorroEconomicoAnualCrm == a.ahorroEconomicoAnualCrm
      && w.ahorroTotalAnual == a.ahorroTotalAnual
      && w.inversionTotal == a.inversionTotal
  {
    ToNumberAgrees(input.consultasMensuales);
    ToNumberAgrees(input.porcentajeAutomatizableChatbot);
    ToNumberAgrees(input.tiempoRespuestaManual);
    ToNumberAgrees(input.horasMensualesCrm);
    ToNumberAgrees(input.porcentajeAutomatizableCrm);
    ToNumberAgrees(input.personasInvolucradas);
    ToNumberAgrees(input.costoHorarioEmpleado);
    ToNumberAgrees(input.costoLicenciaAnual);
    ToNumberAgrees(input.costoImplementacion);
  }

  /** The Workers copy opens the revenue gate on the same inputs and computes the same estimate. */
  lemma WorkerRevenueAgrees(input: RoiWire.CalculationInput)
    requires !CalculateRoiFunction.ReadsMissing(input)
    ensures CalculateRoiFunction.Compute(input).value.ingresosAdicionalesEstimados
         == RoiApp.CalculateRoi(FormOfWire(input)).ingresosAdicionalesEstimados
  {
    var data := FormOfWire(input);
    if RoiApp.RevenueGateOpen(data) {
      var consultasAnuales := RoiApp.ToNumber(data.consultasMensuales) * 12.0;
      var expected :=
        (consultasAnuales * (input.tasaConversionEsperada.n / 100.0) - consultasAnuales * (input.tasaConversionActual.n / 100.0))
        * input.valorTicketPromedio.n;
      assert data.tasaConversionEsperada.n == input.tasaConversionEsperada.n;
      assert RoiApp.CalculateRoi(data).ingresosAdicionalesEstimados.value == expected;
      ToNumberAgrees(input.consultasMensuales);
      assert CalculateRoiFunction.Compute(input).value.ingresosAdicionalesEstimados.value == expected;
    } else {
      assert !CalculateRoiFunction.RevenueGateOpen(input);
    }
  }

  /** `null` and a cleared input both read as 0; numbers read as themselves. */
  lemma ToNumberAgrees(v: RoiWire.JsonNumber)
    requires !v.Missing?
    ensures CalculateRoiFunction.ToNumber(v) == RoiApp.ToNumber(FormOfJson(v))
  {
  }

  /** A server request posted as JSON, `None` serialised as `null`. */
  function WireOf(input: RoiServer.CalculationInput): RoiWire.CalculationInput
  {
    RoiWire.CalculationInput(
      RoiWire.Number(input.consultasMensuales as real), RoiWire.Number(input.porcentajeAutomatizableChatbot as real),
      RoiWire.Number(input.tiempoRespuestaManual as real), RoiWire.Number(input.horasMensualesCrm as real),
      RoiWire.Number(input.porcentajeAutomatizableCrm as real), RoiWire.Number(input.personasInvolucradas as real),
      RoiWire.Number(input.costoHorarioEmpleado as real), RoiWire.Number(input.costoLicenciaAnual as real),
      RoiWire.Number(input.costoImplementacion as real),
      if input.valorTicketPromedio.Some? then RoiWire.Number(input.valorTicketPromedio.value as real) else RoiWire.Null,
      if input.tasaConversionActual.Some? then RoiWire.Number(input.tasaConversionActual.value) else RoiWire.Null,
      if input.tasaConversionEsperada.Some? then RoiWire.Number(input.tasaConversionEsperada.value) else RoiWire.Null)
  }

  /** All three copies give one result for one request whenever something is invested. */
  lemma ThreeCopiesAgree(input: RoiServer.CalculationInput)
    requires RoiServer.InversionTotal(input) != 0
    ensures RoiServer.CalculateRoi(input).Ok?
    ensures CalculateRoiFunction.Compute(WireOf(input)) == Some(RoiApp.CalculateRoi(FormOf(input)))
    ensures Some(AsJsResult(RoiServer.CalculateRoi(input).value)) == CalculateRoiFunction.Compute(WireOf(input))
  {
    ServerAgreesWithApp(input);
    WorkerAgreesWithApp(WireOf(input));
    assert FormOfWire(WireOf(input)) == FormOf(input);
  }

  /**
   * With something invested but no inquiries or no hourly cost, the server
   * computes and answers success, while the Workers function refuses the
   * request as missing data.
   */
  lemma ZeroInquiriesOrCostDiverge(input: RoiServer.CalculationInput)
    requires RoiServer.InversionTotal(input) != 0
    requires input.consultasMensuales == 0 || input.costoHorarioEmpleado == 0
    ensures RoiServer.CalculateEndpoint(input).Success?
    ensures CalculateRoiFunction.HandleRequest(CalculateRoiFunction.Request("POST", Some(WireOf(input))))
         == RoiWire.Response(400, RoiWire.Text("Missing required calculation data"))
  {
  }

  /**
   * With nothing invested the copies part ways: the server answers 500, while
   * the Workers function still answers success (when its two checks pass) and
   * the browser shows a non-finite ROI.
   */
  lemma ZeroInvestmentDiverges(input: RoiServer.CalculationInput)
    requires RoiServer.InversionTotal(input) == 0
    requires input.consultasMensuales != 0 && input.costoHorarioEmpleado != 0
    ensures RoiServer.CalculateEndpoint(input) == RoiServer.HttpError(500, "Error en el cálculo")
    ensures CalculateRoiFunction.HandleRequest(CalculateRoiFunction.Request("POST", Some(WireOf(input)))).status == 200
    ensures !RoiApp.CalculateRoi(FormOf(input)).roiPorcentaje.Finite?
  {
    ServerAgreesWithApp(input);
  }
}
