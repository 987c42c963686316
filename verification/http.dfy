/** The HTTP status codes the route handlers answer with. */
module Http {

  const OK: nat := 200
  const BAD_REQUEST: nat := 400
  const NOT_FOUND: nat := 404
  const SERVER_ERROR: nat := 500
}
