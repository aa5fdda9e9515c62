/**
 * What a handler hands back to the HTTP layer: a status code and a JSON
 * payload, which the layer writes verbatim (`res.status(s).json(p)`).
 */
module Http {

  /** The payload shapes the controllers produce. */
  datatype Payload<+T> =
    | Message(error: string)                           // `{ error }`
    | Invalid(error: string, details: seq<string>)      // `{ error, details }` for a failed schema
    | Json(value: T)                                    // an entity, a listing or a token
    | NoContent                                         // `res.status(204).send()`

  datatype Response<+T> = Response(status: int, payload: Payload<T>)

  /** `{ error: "ID inválido" }` with 400, for a path id that `parseInt` reads as NaN. */
  function InvalidId<T>(): Response<T> {
    Response(400, Message("ID inválido"))
  }

  /** `{ error: "Erro de validação", details }` with 400: every message the schema produced. */
  function ValidationFailed<T>(details: seq<string>): Response<T> {
    Response(400, Invalid("Erro de validação", details))
  }

  /** `{ error: "Data inválida em <field>" }` with 400, for a date query parameter `isValid` rejects. */
  function InvalidDateParam<T>(field: string): Response<T> {
    Response(400, Message("Data inválida em " + field))
  }

  /** What a state-changing handler leaves behind: its response and the new contents of its table. */
  datatype Outcome<+T, S> = Outcome(response: Response<T>, table: S)
}
