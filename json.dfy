/**
 * The values a handler receives from the HTTP layer: the JSON request body as
 * koa-bodyparser hands it over, and the result of `Number(ctx.params.x)` for a
 * path parameter.
 */
module Json {

  import opened Wrappers

  /** A parsed JSON value. JSON numbers are kept as reals. */
  datatype Json =
    | JNull
    | JBool(b: bool)
    | JNumber(x: real)
    | JString(s: string)
    | JArray(items: seq<Json>)
    | JObject(fields: map<string, Json>)

  /**
   * What `Number(param)` yields, as far as the id guard can tell: an integral
   * number `Int(n)`, or anything `Number.isInteger` rejects (NaN, an infinity,
   * a fraction).
   */
  datatype NumVal = Int(n: int) | NotInteger

  /** The shared guard `Number.isInteger(id) && id > 0`, the negation of the handlers' rejection test. */
  predicate IsPositiveInteger(v: NumVal) {
    v.Int? && v.n > 0
  }

  /** The property `key` of a destructured request body, `None` when it is `undefined`. */
  function Member(body: Json, key: string): (r: Option<Json>)
    ensures r.Some? <==> body.JObject? && key in body.fields
    ensures r.Some? ==> r.value == body.fields[key]
  {
    if body.JObject? && key in body.fields then Some(body.fields[key]) else None
  }
}
