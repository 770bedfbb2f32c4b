/**
 * Responses as the handlers write them with Express (`res.status(..).json(..)`,
 * `res.sendStatus(..)`, `res.setHeader('WWW-Authenticate', ..)`), and the
 * status mapping every single-row route shares: a found row is 200, a missing
 * one 404, a thrown error 500 (400 for updates).
 */
module Http {
  import opened Wrappers
  import opened Js
  import opened Sql

  datatype Body = JsonBody(json: Json) | TextBody(text: string)

  /** A response: its status, the `WWW-Authenticate` header if one was set, its body. */
  datatype Response = Response(status: int, challenge: Option<string>, body: Body)

  /** `res.status(status).json(j)`. */
  function Send(status: int, j: Json): Response
  {
    Response(status, None, JsonBody(j))
  }

  /** `res.status(status).json({ error: message })`. */
  function Error(status: int, message: string): Response
  {
    Send(status, JObj(map["error" := JStr(message)]))
  }

  /** `res.sendStatus(code)`: the status with its reason phrase as a text body. */
  function SendStatus(code: int): Response
  {
    Response(code, None, TextBody(
      if code == 401 then "Unauthorized"
      else if code == 403 then "Forbidden"
      else if code == 404 then "Not Found"
      else IntToString(code)))
  }

  /** What a model's `findById`, `update` or `delete` produced. */
  datatype StoreReply = Found(row: Row) | Missing | Failed(message: string)

  /** GET `/:id`: the row, or 404 "<entity> not found", or 500 with the error's message. */
  function GetReply(r: StoreReply, entity: string): (resp: Response)
    ensures resp.status == 200 <==> r.Found?
    ensures resp.status == 404 <==> r.Missing?
    ensures resp.status == 500 <==> r.Failed?
    ensures r.Found? ==> resp.body == JsonBody(JObj(r.row))
    ensures r.Missing? ==> resp == Error(404, entity + " not found")
    ensures r.Failed? ==> resp == Error(500, r.message)
  {
    match r
    case Found(row) => Send(200, JObj(row))
    case Missing => Error(404, entity + " not found")
    case Failed(m) => Error(500, m)
  }

  /** PUT `/:id`: like GET, except that a thrown error is 400. */
  function PutReply(r: StoreReply, entity: string): (resp: Response)
    ensures resp.status == 200 <==> r.Found?
    ensures resp.status == 404 <==> r.Missing?
    ensures resp.status == 400 <==> r.Failed?
    ensures r.Found? ==> resp.body == JsonBody(JObj(r.row))
    ensures r.Missing? ==> resp == Error(404, entity + " not found")
    ensures r.Failed? ==> resp == Error(400, r.message)
  {
    match r
    case Found(row) => Send(200, JObj(row))
    case Missing => Error(404, entity + " not found")
    case Failed(m) => Error(400, m)
  }

  /** DELETE `/:id`: a confirmation message, or 404, or 500. The removed row is not echoed. */
  function DeleteReply(r: StoreReply, entity: string): (resp: Response)
    ensures resp.status == 200 <==> r.Found?
    ensures resp.status == 404 <==> r.Missing?
    ensures resp.status == 500 <==> r.Failed?
    ensures r.Found? ==> resp == Send(200, JObj(map["message" := JStr(entity + " deleted successfully")]))
    ensures r.Missing? ==> resp == Error(404, entity + " not found")
    ensures r.Failed? ==> resp == Error(500, r.message)
  {
    match r
    case Found(_) => Send(200, JObj(map["message" := JStr(entity + " deleted successfully")]))
    case Missing => Error(404, entity + " not found")
    case Failed(m) => Error(500, m)
  }
}
