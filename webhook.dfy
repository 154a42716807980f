/**
 * What the four n8n webhooks under src/app/api/webhooks share: the bearer
 * check against the shared secret, the outcome of reading and validating
 * the JSON body, and the set of database writes that fail on a given run.
 */
module Webhook {
  import opened Wrappers
  import opened Strings

  /**
   * The body of a request after `req.json()` and the Zod `parse`: not JSON
   * at all (the handler's catch turns that into a 500), rejected by the
   * schema (a 400), or a payload of the schema's shape.
   */
  datatype Body<P> = NotJson | SchemaError | Parsed(payload: P)

  datatype Request<P> = Request(authorization: Option<string>, body: Body<P>)

  /** The value the Authorization header must carry. */
  function ExpectedHeader(secret: string): (r: string)
    ensures StartsWith(r, "Bearer ") && r[7..] == secret
    ensures |r| == |secret| + 7
  {
    "Bearer " + secret
  }

  /** `!authHeader || authHeader !== expectedSecret` is the refusal; this is its negation. */
  predicate Authorized(header: Option<string>, secret: string) {
    header.Some? && header.value != "" && header.value == ExpectedHeader(secret)
  }

  /** Only the exact header `Bearer <secret>` is accepted; a missing header never is. */
  lemma AuthorizedExactly(header: Option<string>, secret: string)
    ensures Authorized(header, secret) <==> header == Some("Bearer " + secret)
    ensures Authorized(None, secret) == false
  {
  }

  /** A database write that can fail on a given run (its error is then thrown, or ignored where noted). */
  datatype Write =
    | ReportUpdate | ReportInsert | InterventionUpdate | InterventionUpsert
    | InterventionInsert | InterventionCancel | InvoiceInsert | EmailInsert | RegieWrite | RegieDelete
}
