/**
 * The `fetch` round trips the pages make, seen from the page: the request it
 * sends and the reply it gets back.  The network itself is not modelled; a
 * reply is an input of the operation that awaits it.
 */
module Http {
  import opened Wrappers
  import opened JsValues

  /** A page's `status` state: "idle", "loading", "success" or "error". */
  datatype PageStatus = Idle | Loading | Succeeded | Error

  /** What `fetch` resolves to: a rejection, or a response whose body `response.json()` reads. */
  datatype Reply =
    | NetworkError(message: string)
    | Reply(ok: bool, body: Result<Value>)

  /** A request as the page builds it: method, path below the API root, query pairs and body. */
  datatype Request = Request(verb: string, path: string, query: seq<(string, string)>, body: Value)

  /**
   * `const result = await response.json(); if (!response.ok) throw new Error(result.message || fallback)`.
   * A body that is not JSON fails as `response.json()` does; reading
   * `message` of a `null` body throws a TypeError.
   */
  function ThrowUnlessOk(ok: bool, parsed: Result<Value>, fallback: string): (r: Result<Value>)
    ensures parsed.Failure? ==> r == parsed
    ensures parsed.Success? ==> (r.Success? <==> ok)
    ensures r.Success? ==> r.value == parsed.value
    ensures parsed.Success? && !ok && Nullish(parsed.value) ==> r == Failure(TYPE_ERROR)
    ensures parsed.Success? && !ok && !Nullish(parsed.value) ==>
              r == Failure(if Truthy(Get(parsed.value, "message")) then ToJsString(Get(parsed.value, "message")) else fallback)
  {
    match parsed
    case Failure(m) => Failure(m)
    case Success(result) =>
      if ok then Success(result)
      else if Nullish(result) then Failure(TYPE_ERROR)
      else Failure(ToJsString(Or(Get(result, "message"), Str(fallback))))
  }

  /** The whole `fetch`, `json()`, ok-check sequence of a report page. */
  function FetchJson(reply: Reply, fallback: string): (r: Result<Value>)
    ensures reply.NetworkError? ==> r == Failure(reply.message)
    ensures reply.Reply? ==> r == ThrowUnlessOk(reply.ok, reply.body, fallback)
  {
    match reply
    case NetworkError(m) => Failure(m)
    case Reply(ok, parsed) => ThrowUnlessOk(ok, parsed, fallback)
  }

  /** `fetch` then `response.json()` with no look at `response.ok`. */
  function ReadJson(reply: Reply): (r: Result<Value>)
    ensures reply.NetworkError? ==> r == Failure(reply.message)
    ensures reply.Reply? ==> r == reply.body
  {
    match reply
    case NetworkError(m) => Failure(m)
    case Reply(_, parsed) => parsed
  }

  /** An ok reply with a JSON body never fails, whatever the body. */
  lemma OkReplyNeverFails(v: Value, fallback: string)
    ensures FetchJson(Reply(true, Success(v)), fallback) == Success(v)
    ensures ReadJson(Reply(true, Success(v))) == Success(v)
  {
  }

  /**
   * A non-ok reply whose body carries a non-empty string `message` fails
   * with exactly that message; with no usable message it fails with the fallback.
   */
  lemma ErrorReplyMessage(props: seq<Prop>, fallback: string)
    ensures var r, m := FetchJson(Reply(false, Success(Obj(props))), fallback), Lookup(props, "message");
            && r.Failure?
            && (m.Some? && m.value.Str? && m.value.s != "" ==> r.message == m.value.s)
            && (m.None? ==> r.message == fallback)
  {
  }
}
