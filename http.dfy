/** The JSON responses the route handlers return. */
module Http {
  import opened Js

  /** `NextResponse.json(body)` (status 200) or `NextResponse.json({error, details?}, {status})`. */
  datatype Response<+T> =
    | Json(body: T)
    | ErrorJson(status: nat, error: string, details: Option<string>)

  const UNAUTHORIZED: nat := 401
  const INTERNAL_SERVER_ERROR: nat := 500
}
