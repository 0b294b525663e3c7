/**
 * The JSON bodies and responses of the two Cloudflare Workers functions
 * (functions/api/calculate-roi.js and functions/api/submit-roi.js).
 */
module RoiWire {

  /** A numeric member of a parsed JSON object: not there (`undefined`), `null`, or a number. */
  datatype JsonNumber = Missing | Null | Number(n: real)

  /** JavaScript truthiness: `undefined`, `null` and `0` are falsy. */
  predicate Truthy(v: JsonNumber)
  {
    v.Number? && v.n != 0.0
  }

  /** The calculator's input as posted. */
  datatype CalculationInput = CalculationInput(
    consultasMensuales: JsonNumber,
    porcentajeAutomatizableChatbot: JsonNumber,
    tiempoRespuestaManual: JsonNumber,
    horasMensualesCrm: JsonNumber,
    porcentajeAutomatizableCrm: JsonNumber,
    personasInvolucradas: JsonNumber,
    costoHorarioEmpleado: JsonNumber,
    costoLicenciaAnual: JsonNumber,
    costoImplementacion: JsonNumber,
    valorTicketPromedio: JsonNumber,
    tasaConversionActual: JsonNumber,
    tasaConversionEsperada: JsonNumber)

  /** The calculator's result as posted with a submission. */
  datatype CalculationOutput = CalculationOutput(
    ahorroTiempoMensualChatbot: JsonNumber,
    ahorroEconomicoAnualChatbot: JsonNumber,
    ahorroTiempoAnualCrm: JsonNumber,
    ahorroEconomicoAnualCrm: JsonNumber,
    ahorroTotalAnual: JsonNumber,
    inversionTotal: JsonNumber,
    roiPorcentaje: JsonNumber,
    ingresosAdicionalesEstimados: JsonNumber)

  /** A response body: plain text, or the JSON object `{ status, message }` and nothing else. */
  datatype Body = Text(text: string) | Json(status: string, message: string)

  datatype Response = Response(status: int, body: Body)

  const MethodNotAllowed := Response(405, Text("Method not allowed"))
  const InternalServerError := Response(500, Text("Internal server error"))
}
