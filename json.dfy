/**
 * The JavaScript values the screens keep in their state and exchange with
 * the server: records are maps from field names to primitive values, a field
 * that is not there reads as `undefined`, and conditions use JavaScript
 * truthiness.
 */
module Json {
  import opened Wrappers

  datatype Value = Undefined | Null | Bool(b: bool) | Str(s: string)

  /** A record as sent or received: a spread object `{ ...o, k: v }` is `o[k := v]`. */
  type Obj = map<string, Value>

  /** `o.key`: a missing field reads as `undefined`. */
  function Get(o: Obj, key: string): Value {
    if key in o then o[key] else Undefined
  }

  /** JavaScript truthiness of a primitive value. */
  predicate Truthy(v: Value) {
    match v
    case Undefined => false
    case Null => false
    case Bool(b) => b
    case Str(s) => s != ""
  }

  /** `!v` as a value. */
  function Not(v: Value): (r: Value)
    ensures r.Bool? && (Truthy(r) <==> !Truthy(v))
  {
    Bool(!Truthy(v))
  }

  /** `a || b`: the first operand when it is truthy, otherwise the second. */
  function Or(a: Value, b: Value): (r: Value)
    ensures r == a || r == b
    ensures Truthy(r) <==> Truthy(a) || Truthy(b)
  {
    if Truthy(a) then a else b
  }

  /** `String(v)`, as string concatenation and `localStorage.setItem` apply it. */
  function ToText(v: Value): string {
    match v
    case Undefined => "undefined"
    case Null => "null"
    case Bool(b) => if b then "true" else "false"
    case Str(s) => s
  }

  /** A stored string read back as a value: `localStorage.getItem` gives `null` when the key is absent. */
  function OfStored(o: Option<string>): (v: Value)
    ensures o.None? ==> v == Null
    ensures o.Some? ==> v == Str(o.value)
  {
    match o
    case None => Null
    case Some(s) => Str(s)
  }

  /**
   * A rejected HTTP call as axios reports it: `body` is `error.response.data`
   * when the server answered, and `message` is `error.message`.
   */
  datatype HttpError = HttpError(body: Option<Obj>, message: string)

  /** `error.response?.data?.message`. */
  function ServerMessage(e: HttpError): Value {
    match e.body
    case None => Undefined
    case Some(data) => Get(data, "message")
  }

  /**
   * `error.response?.data?.message || error.message`, as a string: the
   * server's message when it sent a non-empty one, otherwise the client-side
   * error text.
   */
  function Detail(e: HttpError): (d: string)
    ensures !Truthy(ServerMessage(e)) ==> d == e.message
    ensures ServerMessage(e).Str? && ServerMessage(e).s != "" ==> d == ServerMessage(e).s
  {
    ToText(Or(ServerMessage(e), Str(e.message)))
  }

  /** The outcome of one awaited request: the fields of `response.data`, or the error. */
  datatype Reply<T> = Ok(data: T) | Failed(error: HttpError)

  /** A POST the page issues: the API path (after the configured host) and its JSON body. */
  datatype Request = Post(path: string, body: Obj) | GetRequest(path: string)

  /** What the page does to the browser after a handler: nothing, a reload, or a navigation. */
  datatype Effect = Stay | Reload | GoTo(path: string)
}
