/** The Odoo sync client: configuration, session authentication, the JSON-RPC
    gateway `call_method` and the record helpers built on it. */
module Odoo {

  import opened Values
  import opened Decimal
  import opened Environment

  const DefaultApiUrl := "http://localhost:8069"
  const DefaultDb := "integration_test4"
  const DefaultUsername := "admin"
  const DefaultPassword := "admin"
  const DefaultSearchLimit := 80
  const AuthenticatePath := "/web/session/authenticate"
  const CollectionPath := "/api/stap_models"

  datatype Credentials = Credentials(apiUrl: string, db: string, username: string, password: string)

  /** `config or getattr(settings, "ODOO_CONFIG", {})`: an explicit config wins
      only when it is a non-empty dict; `settingsConfig` is None when the
      settings module has no ODOO_CONFIG. */
  function ConfigSource(config: Option<map<string, string>>, settingsConfig: Option<map<string, string>>): (m: map<string, string>)
    ensures config.Some? && config.value != map[] ==> m == config.value
    ensures (config.None? || config.value == map[]) && settingsConfig.Some? ==> m == settingsConfig.value
    ensures (config.None? || config.value == map[]) && settingsConfig.None? ==> m == map[]
  {
    if config.Some? && config.value != map[] then config.value
    else if settingsConfig.Some? then settingsConfig.value
    else map[]
  }

  /** `odoo_config.get(key, default)`. */
  function Setting(m: map<string, string>, key: string, default: string): string {
    if key in m then m[key] else default
  }

  /** The four connection settings of a new service, each taken from the
      configuration source when present and defaulted otherwise. */
  function Configure(config: Option<map<string, string>>, settingsConfig: Option<map<string, string>>): (c: Credentials)
    ensures var m := ConfigSource(config, settingsConfig);
      && (if "API_URL" in m then c.apiUrl == m["API_URL"] else c.apiUrl == DefaultApiUrl)
      && (if "DB" in m then c.db == m["DB"] else c.db == DefaultDb)
      && (if "USERNAME" in m then c.username == m["USERNAME"] else c.username == DefaultUsername)
      && (if "PASSWORD" in m then c.password == m["PASSWORD"] else c.password == DefaultPassword)
  {
    var m := ConfigSource(config, settingsConfig);
    Credentials(
      Setting(m, "API_URL", DefaultApiUrl),
      Setting(m, "DB", DefaultDb),
      Setting(m, "USERNAME", DefaultUsername),
      Setting(m, "PASSWORD", DefaultPassword))
  }

  /** A non-empty explicit config makes the settings irrelevant. */
  lemma ExplicitConfigIgnoresSettings(config: map<string, string>, s1: Option<map<string, string>>, s2: Option<map<string, string>>)
    requires config != map[]
    ensures Configure(Some(config), s1) == Configure(Some(config), s2)
  {
  }

  /** With nothing configured anywhere, every setting takes its default. */
  lemma UnconfiguredDefaults(config: Option<map<string, string>>)
    requires config.None? || config.value == map[]
    ensures Configure(config, None) == Credentials(DefaultApiUrl, DefaultDb, DefaultUsername, DefaultPassword)
  {
  }

  /** The JSON-RPC 2.0 `call` envelope around `params`. */
  function Envelope(params: map<string, Json>): Json {
    JObj(map["jsonrpc" := JStr("2.0"), "method" := JStr("call"), "params" := JObj(params)])
  }

  /** The login request: POST to the authenticate path with db, login and password. */
  function AuthRequest(c: Credentials): (r: Request)
    ensures r.verb == "post" && r.url == c.apiUrl + AuthenticatePath
    ensures r.body == Envelope(map["db" := JStr(c.db), "login" := JStr(c.username), "password" := JStr(c.password)])
  {
    Request("post", c.apiUrl + AuthenticatePath,
      Envelope(map["db" := JStr(c.db), "login" := JStr(c.username), "password" := JStr(c.password)]))
  }

  /** The decoded `result.uid` of a login reply, or the exception `authenticate` raises. */
  function AuthResult(reply: Reply): (r: Outcome<Json>)
    ensures reply.Failed? ==> r == Raised(TransportError(reply.reason))
    ensures r.Ok? <==>
      && reply.Decoded? && reply.body.JObj?
      && Truthy(Get(reply.body.fields, "result")) && Get(reply.body.fields, "result").JObj?
      && Truthy(Get(Get(reply.body.fields, "result").fields, "uid"))
    ensures r.Ok? ==> r.value == Get(Get(reply.body.fields, "result").fields, "uid") && Truthy(r.value)
    ensures reply.Decoded? && reply.body.JObj? && !Truthy(Get(reply.body.fields, "result"))
      ==> r == Raised(AuthenticationFailed)
    ensures reply.Decoded? && reply.body.JObj? && Get(reply.body.fields, "result").JObj?
      && !Truthy(Get(Get(reply.body.fields, "result").fields, "uid"))
      ==> r == Raised(AuthenticationFailed)
    ensures reply.Decoded? && reply.body.JObj? && Truthy(Get(reply.body.fields, "result"))
      && !Get(reply.body.fields, "result").JObj?
      ==> r == Raised(WrongShape)
    ensures reply.Decoded? && !reply.body.JObj? ==> r == Raised(WrongShape)
  {
    match reply
    case Failed(reason) => Raised(TransportError(reason))
    case Decoded(JObj(fields)) =>
      var result := Get(fields, "result");
      if !Truthy(result) then Raised(AuthenticationFailed)
      else if !result.JObj? then Raised(WrongShape)  // `.get` on a truthy non-dict
      else if Truthy(Get(result.fields, "uid")) then Ok(Get(result.fields, "uid"))
      else Raised(AuthenticationFailed)
    case Decoded(_) => Raised(WrongShape)  // `.get` on a decoded non-dict
  }

  function CollectionBase(apiUrl: string): string {
    apiUrl + CollectionPath
  }

  /** The gateway's URL: the collection, plus `/<id>` only for a truthy id.
      The model name plays no part in it. */
  function CollectionUrl(apiUrl: string, recordId: Option<int>): (url: string)
    ensures |url| >= |CollectionBase(apiUrl)| && url[..|CollectionBase(apiUrl)|] == CollectionBase(apiUrl)
    ensures url == CollectionBase(apiUrl) <==> !Truthy(IdJson(recordId))
  {
    CollectionBase(apiUrl) + if Truthy(IdJson(recordId)) then "/" + IntToString(recordId.value) else ""
  }

  /** The record id a collection URL addresses, if any: the inverse of `CollectionUrl`. */
  function RecordIdOfUrl(apiUrl: string, url: string): Option<int> {
    var base := CollectionBase(apiUrl) + "/";
    if |url| > |base| && url[..|base|] == base then ParseInt(url[|base|..]) else None
  }

  lemma UrlRoundTrip(apiUrl: string, recordId: Option<int>)
    ensures RecordIdOfUrl(apiUrl, CollectionUrl(apiUrl, recordId)) == if Truthy(IdJson(recordId)) then recordId else None
  {
    if Truthy(IdJson(recordId)) {
      var digits := IntToString(recordId.value);
      assert CollectionUrl(apiUrl, recordId) == CollectionBase(apiUrl) + "/" + digits;
      RecordIdOfSuffix(apiUrl, digits);
      ParseIntToString(recordId.value);
    }
  }

  lemma RecordIdOfSuffix(apiUrl: string, suffix: string)
    requires suffix != ""
    ensures RecordIdOfUrl(apiUrl, CollectionBase(apiUrl) + "/" + suffix) == ParseInt(suffix)
  {
    var base := CollectionBase(apiUrl) + "/";
    assert (base + suffix)[..|base|] == base;
    assert (base + suffix)[|base|..] == suffix;
  }

  /** Two truthy ids give the same URL only if they are the same id. */
  lemma UrlInjective(apiUrl: string, a: Option<int>, b: Option<int>)
    requires Truthy(IdJson(a)) && CollectionUrl(apiUrl, a) == CollectionUrl(apiUrl, b)
    ensures a == b
  {
    UrlRoundTrip(apiUrl, a);
    UrlRoundTrip(apiUrl, b);
  }

  /** The request `call_method` sends: `verb` as the HTTP method, the
      collection URL, and a `call` envelope whose `data` is `args or []`. */
  function CallRequest(apiUrl: string, verb: string, args: Json, recordId: Option<int>): (r: Request)
    ensures r.verb == verb && r.url == CollectionUrl(apiUrl, recordId)
    ensures Truthy(args) ==> r.body == Envelope(map["data" := args])
    ensures !Truthy(args) ==> r.body == Envelope(map["data" := JArr([])])
  {
    Request(verb, CollectionUrl(apiUrl, recordId), Envelope(map["data" := Or(args, JArr([]))]))
  }

  /** How `call_method` sorts a reply: transport failures and an `error` key
      raise, anything else returns the `result` field (None when absent). */
  function Classify(reply: Reply): (r: Outcome<Json>)
    ensures reply.Failed? ==> r == Raised(TransportError(reply.reason))
    ensures r.Ok? <==> reply.Decoded? && reply.body.JObj? && "error" !in reply.body.fields
    ensures r.Ok? ==> r.value == Get(reply.body.fields, "result")
    ensures reply.Decoded? && reply.body.JObj? && "error" in reply.body.fields
      ==> r == Raised(RemoteError(reply.body.fields["error"]))
  {
    match reply
    case Failed(reason) => Raised(TransportError(reason))
    case Decoded(JObj(fields)) =>
      if "error" in fields then Raised(RemoteError(fields["error"])) else Ok(Get(fields, "result"))
    case Decoded(_) => Raised(WrongShape)  // `"error" in` or `.get` on a non-dict fails
  }

  /** The positional arguments of `read_record`: `[[record_id], fields]`. */
  function ReadArgs(recordId: Option<int>, fields: Json): Json {
    JArr([JArr([IdJson(recordId)]), fields])
  }

  /** `read_record`'s reshaping: `result[0]` when the result is truthy, else None. */
  function ReadShape(result: Json): (r: Outcome<Json>)
    ensures !Truthy(result) ==> r == Ok(JNull)
    ensures result.JArr? && result.items != [] ==> r == Ok(result.items[0])
    ensures result.JStr? && result.s != "" ==> r == Ok(JStr([result.s[0]]))
    ensures r.Raised? <==> Truthy(result) && !result.JArr? && !result.JStr?
  {
    if Truthy(result) then SubscriptAt(result, 0) else Ok(JNull)
  }

  /** The positional arguments `search_records` builds: the domain alone, an
      empty domain (match every record) when it is falsy. */
  function SearchArgs(domain: Json): (args: Json)
    ensures args.JArr? && |args.items| == 1
    ensures args.items[0] == (if Truthy(domain) then domain else JArr([]))
  {
    JArr([Or(domain, JArr([]))])
  }

  /** The keyword arguments `search_records` builds: empty fields and order default to `[]` and `""`. */
  function SearchKeywords(fields: Json, limit: Json, offset: Json, order: Json): (kw: map<string, Json>)
    ensures kw.Keys == {"fields", "limit", "offset", "order"}
    ensures kw["fields"] == (if Truthy(fields) then fields else JArr([]))
    ensures kw["order"] == (if Truthy(order) then order else JStr(""))
    ensures kw["limit"] == limit && kw["offset"] == offset
  {
    map["fields" := Or(fields, JArr([])), "limit" := limit, "offset" := offset, "order" := Or(order, JStr(""))]
  }

  class OdooService {
    var apiUrl: string
    var db: string
    var username: string
    var password: string
    var uid: Option<Json>
    /** `requests.Session()`: every request goes to the shared world. */
    const session: World

    function Settings(): Credentials
      reads this
    {
      Credentials(apiUrl, db, username, password)
    }

    /** Lines 18-24 of `__init__`: settings and `uid`, before authenticating. */
    constructor (settingsConfig: Option<map<string, string>>, session: World, config: Option<map<string, string>> := None)
      ensures Settings() == Configure(config, settingsConfig)
      ensures uid == None && this.session == session
    {
      var c := Configure(config, settingsConfig);
      apiUrl, db, username, password := c.apiUrl, c.db, c.username, c.password;
      this.session := session;
      uid := None;
    }

    /** Logs in; `uid` is set only by a reply carrying a truthy `result.uid`. */
    method Authenticate() returns (r: Outcome<()>)
      modifies this`uid, session`events
      ensures session.events == old(session.events) + [Sent(AuthRequest(Settings()))]
      ensures var res := AuthResult(session.answer(old(session.events), AuthRequest(Settings())));
        && (res.Ok? ==> r == Ok(()) && uid == Some(res.value))
        && (res.Raised? ==> r == Raised(res.error) && uid == old(uid))
    {
      var reply := session.Send(AuthRequest(Settings()));
      var res := AuthResult(reply);
      if res.Ok? {
        uid := Some(res.value);
        r := Ok(());
      } else {
        r := Raised(res.error);
      }
    }

    /** `call_method`: one request, its reply classified. `model` is unused. */
    method CallMethod(model: string, verb: string, args: Json := JNull, recordId: Option<int> := None) returns (r: Outcome<Json>)
      modifies session`events
      ensures session.events == old(session.events) + [Sent(CallRequest(apiUrl, verb, args, recordId))]
      ensures r == Classify(session.answer(old(session.events), CallRequest(apiUrl, verb, args, recordId)))
    {
      var reply := session.Send(CallRequest(apiUrl, verb, args, recordId));
      r := Classify(reply);
    }

    /** POST with `[data]` and no record id; returns the gateway result. */
    method CreateRecord(model: string, data: Json) returns (r: Outcome<Json>)
      modifies session`events
      ensures session.events == old(session.events) + [Sent(CallRequest(apiUrl, "post", JArr([data]), None))]
      ensures r == Classify(session.answer(old(session.events), CallRequest(apiUrl, "post", JArr([data]), None)))
    {
      r := CallMethod(model, "post", JArr([data]));
    }

    /** PUT with `data` itself as the arguments; the result is returned verbatim, not as a bool. */
    method WriteRecord(model: string, recordId: Option<int>, data: Json) returns (r: Outcome<Json>)
      modifies session`events
      ensures session.events == old(session.events) + [Sent(CallRequest(apiUrl, "put", data, recordId))]
      ensures r == Classify(session.answer(old(session.events), CallRequest(apiUrl, "put", data, recordId)))
    {
      r := CallMethod(model, "put", data, recordId);
    }

    /** DELETE with no arguments (so `data` is `[]`); the result is returned verbatim. */
    method UnlinkRecord(model: string, recordId: Option<int>) returns (r: Outcome<Json>)
      modifies session`events
      ensures session.events == old(session.events) + [Sent(CallRequest(apiUrl, "delete", JNull, recordId))]
      ensures r == Classify(session.answer(old(session.events), CallRequest(apiUrl, "delete", JNull, recordId)))
    {
      r := CallMethod(model, "delete", recordId := recordId);
    }

    /** verb "read" with `[[record_id], fields]` and no id in the URL; the first element of a truthy result. */
    method ReadRecord(model: string, recordId: Option<int>, fields: Json := JNull) returns (r: Outcome<Json>)
      modifies session`events
      ensures session.events == old(session.events) + [Sent(CallRequest(apiUrl, "read", ReadArgs(recordId, fields), None))]
      ensures var res := Classify(session.answer(old(session.events), CallRequest(apiUrl, "read", ReadArgs(recordId, fields), None)));
        r == if res.Raised? then res else ReadShape(res.value)
    {
      var res := CallMethod(model, "read", ReadArgs(recordId, fields));
      if res.Raised? {
        r := res;
      } else {
        r := ReadShape(res.value);
      }
    }

    /** `search_records` builds its arguments and then calls `call_method`
        with a `kwargs=` keyword that `call_method` does not declare, so the
        call raises TypeError before any request is sent: this method has no
        modifies clause. */
    method SearchRecords(model: string, domain: Json := JNull, fields: Json := JNull,
                         limit: Json := JNum(DefaultSearchLimit), offset: Json := JNum(0), order: Json := JNull)
      returns (r: Outcome<Json>)
      ensures r == Raised(UnexpectedKeyword("kwargs"))
    {
      var args := SearchArgs(domain);
      var kwargs := SearchKeywords(fields, limit, offset, order);
      r := Raised(UnexpectedKeyword("kwargs"));
    }
  }

  /** `OdooService(config)`: construct, then authenticate. A failed login
      propagates and no service is returned. */
  method Connect(settingsConfig: Option<map<string, string>>, session: World, config: Option<map<string, string>> := None)
    returns (r: Outcome<OdooService>)
    modifies session`events
    ensures var c := Configure(config, settingsConfig);
      var res := AuthResult(session.answer(old(session.events), AuthRequest(c)));
      && session.events == old(session.events) + [Sent(AuthRequest(c))]
      && (res.Raised? ==> r == Raised(res.error))
      && (res.Ok? ==> r.Ok? && fresh(r.value) && r.value.session == session
                      && r.value.Settings() == c && r.value.uid == Some(res.value))
  {
    var odoo := new OdooService(settingsConfig, session, config);
    var authenticated := odoo.Authenticate();
    if authenticated.Raised? {
      r := Raised(authenticated.error);
    } else {
      r := Ok(odoo);
    }
  }
}
