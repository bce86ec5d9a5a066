/** An HTTP response as the Express handlers produce it: a status code and a JSON body. */
module Http {

  /** `res.status(status).json(body)`; `res.json(body)` alone answers 200. */
  datatype Response<+B> = Response(status: nat, body: B)

  const OkStatus: nat := 200
  const CreatedStatus: nat := 201
  const ServerErrorStatus: nat := 500
}
