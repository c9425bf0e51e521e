/**
 * The part of an HTTP response the handlers decide: its status code and its JSON
 * `message` (empty when the body carries data instead of a message).
 */
module Http {

  datatype Response = Response(status: nat, message: string)

  /** `res.json(...)` without an explicit status. */
  const Success := 200
  const Created := 201
  const BadRequest := 400
  const Unauthorized := 401
  const Forbidden := 403
  const NotFound := 404
  const Conflict := 409
  const ServerError := 500
}
