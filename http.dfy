/** What a `fetch` call hands back to the pages, as an input to the model:
    either the request itself failed, or a response arrived whose body was or
    was not JSON. Each page chooses the JSON shapes `B` it tells apart. */
module Http {
  import opened Wrappers
  import Text

  /** The body as `res.json()` sees it: unparsable (the parser's error
      message), or a JSON value of one of the shapes `B`. */
  datatype Body<+B> = Unparsable(parseError: string) | Json(value: B)

  /** `Thrown`: `fetch` itself rejected (network failure), with its message. */
  datatype Reply<+B> =
    | Thrown(message: string)
    | Response(ok: bool, status: int, statusText: string, body: Body<B>)

  /** JavaScript `a || b` on strings: the empty string is falsy. */
  function Or(a: string, b: string): (r: string)
    ensures r == a || r == b
    ensures r == "" <==> a == "" && b == ""
  {
    if a != "" then a else b
  }

  /** `employee_id` as read from local storage: missing and "" are both falsy. */
  predicate Present(v: Option<string>)
  {
    v.Some? && v.value != ""
  }
}
