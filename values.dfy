/** The Python values that the Odoo client handles: decoded JSON, Python
    truthiness and subscripting, and the exceptions the client can raise. */
module Values {

  datatype Option<+T> = None | Some(value: T)

  /** A decoded JSON value, as `response.json()` returns it (numbers are integers). */
  datatype Json =
    | JNull
    | JBool(b: bool)
    | JNum(n: int)
    | JStr(s: string)
    | JArr(items: seq<Json>)
    | JObj(fields: map<string, Json>)

  /** Python truthiness: None, False, 0, "", [] and {} are falsy. */
  predicate Truthy(v: Json) {
    match v
    case JNull => false
    case JBool(b) => b
    case JNum(n) => n != 0
    case JStr(s) => s != ""
    case JArr(items) => items != []
    case JObj(fields) => fields != map[]
  }

  /** Python `a or b`. */
  function Or(a: Json, b: Json): (r: Json)
    ensures Truthy(a) ==> r == a
    ensures !Truthy(a) ==> r == b
  {
    if Truthy(a) then a else b
  }

  /** Python `d.get(key)` on a dict: None when the key is absent. */
  function Get(fields: map<string, Json>, key: string): Json {
    if key in fields then fields[key] else JNull
  }

  /** A nullable integer record id (a Django `IntegerField(null=True)`) as a Python value. */
  function IdJson(id: Option<int>): Json {
    match id
    case None => JNull
    case Some(n) => JNum(n)
  }

  /** The exceptions raised along the paths of the model. */
  datatype Error =
    | TransportError(reason: string)   // requests.exceptions.RequestException: no connection, non-2xx, undecodable body
    | AuthenticationFailed             // Exception("Authentication failed.")
    | RemoteError(detail: Json)        // Exception(f"Odoo API error: ...") carrying the envelope's `error`
    | WrongShape                       // TypeError / AttributeError / KeyError / IndexError on a value of the wrong shape
    | UnexpectedKeyword(name: string)  // TypeError: a call passed a keyword argument the callee does not have
    | DatabaseError                    // a failure of the local persistence layer

  /** The outcome of a Python call: a returned value or a raised exception. */
  datatype Outcome<+T> = Ok(value: T) | Raised(error: Error) {
    predicate IsFailure() { Raised? }

    function PropagateFailure<U>(): Outcome<U>
      requires Raised?
    {
      Raised(error)
    }

    function Extract(): T
      requires Ok?
    {
      value
    }
  }

  /** Python `v[key]` with a string key. Only a dict holding the key answers;
      a dict without it raises KeyError, anything else TypeError. */
  function Subscript(v: Json, key: string): (r: Outcome<Json>)
    ensures r.Ok? <==> v.JObj? && key in v.fields
    ensures r.Ok? ==> r.value == v.fields[key]
    ensures r.Raised? ==> r.error == WrongShape
  {
    match v
    case JObj(fields) => if key in fields then Ok(fields[key]) else Raised(WrongShape)
    case _ => Raised(WrongShape)
  }

  /** Python `v[i]` with a non-negative integer index. A list gives its element
      and a string its one-character substring (IndexError past the end); a
      dict decoded from JSON has only string keys (KeyError); anything else
      raises TypeError. */
  function SubscriptAt(v: Json, i: nat): (r: Outcome<Json>)
    ensures r.Ok? <==> (v.JArr? && i < |v.items|) || (v.JStr? && i < |v.s|)
    ensures r.Ok? && v.JArr? ==> r.value == v.items[i]
    ensures r.Ok? && v.JStr? ==> r.value == JStr([v.s[i]])
  {
    match v
    case JArr(items) => if i < |items| then Ok(items[i]) else Raised(WrongShape)
    case JStr(s) => if i < |s| then Ok(JStr([s[i]])) else Raised(WrongShape)
    case _ => Raised(WrongShape)
  }
}
