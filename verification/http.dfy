/** The HTTP vocabulary shared by the browser client, the Rust server and the
    Python service. */
module Http {
  import opened Json

  /** `response.ok` in the browser and `status().is_success()` in reqwest:
      the 2xx range. */
  predicate IsSuccess(status: nat)
  {
    200 <= status <= 299
  }

  /** A response body: JSON, plain text, or an error page generated by the web
      framework itself (whose content is not part of the model). */
  datatype Payload =
    | JsonBody(json: Json)
    | TextBody(text: string)
    | ErrorPage

  datatype Response = Response(status: nat, body: Payload)
}
