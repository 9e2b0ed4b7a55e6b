# Odoo sync client — a Dafny model

This project models the part of a Django application that mirrors local
`StapModel` records to an Odoo ERP instance:

- `OdooService`, the client. It reads its connection settings (with
  defaults) and logs in through `/web/session/authenticate` when it is built.
  Its one gateway, `call_method`, sends a JSON-RPC 2.0 `call` envelope to
  `<api_url>/api/stap_models[/<id>]` and sorts the reply. The record helpers
  (`create_record`, `write_record`, `unlink_record`, `read_record`,
  `search_records`) reshape their inputs and outputs around that gateway.
- The admin hooks `StapModelAdmin.save_model` and `delete_model`. They save
  or delete locally and call Odoo. Remote errors inside their `try` are
  swallowed.
- The sync-origin marker: the `SyncSourceContext` context manager over a
  thread-local `sync_source` slot, and the `SyncContextMiddleware` that sets
  its own, separate slot to `"odoo"` around each request.

The HTTP session and the local database are one abstract `World`
(`environment.dfy`). It keeps one log of every request sent and every local
write attempted. What Odoo answers, and whether the database refuses a
write, are arbitrary functions of that log so far. Every property below is
proved for all such behaviours. A reply is what
`raise_for_status(); response.json()` yields: a failure or a decoded JSON
value. Python values are the `Json` datatype with Python truthiness, and a
Python exception is `Raised(error)` in an `Outcome`.

Files: `values.dfy` (JSON values, truthiness, subscripting, exceptions),
`decimal.dfy` (`str()` of an int and its inverse), `environment.dfy`,
`odoo_service.dfy`, `admin.dfy`, `context.dfy`, `middleware.dfy`.

Behaviours of the code a reader may not expect (the model follows the code):

- The hooks never consult the sync-origin marker. A save made while the
  marker says `"odoo"` still calls Odoo (`Admin.SaveModelWithinSyncSource`).
- The middleware writes a separate slot, so `get_current_sync_source()`
  never sees its `"odoo"`. It also does not clear the slot when the handler
  raises.
- The HTTP verbs are `post`, `put`, `delete` and `read`. `read` is sent
  literally as the HTTP method.
- `write_record` and `unlink_record` return the gateway result unchanged,
  not a bool.
- `create_record` returns the raw result. The hook reads the new id at
  `data[0].id`; there is no separate create error.
- A failed login raises a plain exception, or re-raises the transport error.
- `search_records` always raises `TypeError` before sending anything,
  because it passes `kwargs=` to `call_method`, which has no such parameter.

## Model

| member | source | states |
|---|---|---|
| `Odoo.ConfigSource` | myapp/services/odoo_service.py:18 | an explicit config is used only when it is a non-empty dict; otherwise `ODOO_CONFIG` from the settings, or `{}` when there is none |
| `Odoo.Configure` | myapp/services/odoo_service.py:18-22 | each of API_URL, DB, USERNAME, PASSWORD comes from the config source when present, else defaults to `http://localhost:8069`, `integration_test4`, `admin`, `admin` |
| `Odoo.ExplicitConfigIgnoresSettings` | myapp/services/odoo_service.py:18 | with a non-empty explicit config, the settings have no influence on the credentials |
| `Odoo.UnconfiguredDefaults` | myapp/services/odoo_service.py:18-22 | with no config (None or `{}`) and no `ODOO_CONFIG`, all four settings take their defaults |
| `Odoo.OdooService.constructor` | myapp/services/odoo_service.py:11-24 | the fields hold the configured credentials and `uid` starts as None |
| `Odoo.AuthRequest` | myapp/services/odoo_service.py:31-43 | the login is a POST to `<api_url>/web/session/authenticate` with a JSON-RPC `call` envelope carrying db, login and password |
| `Odoo.AuthResult` | myapp/services/odoo_service.py:42-54 | login succeeds iff the decoded reply is an object whose `result` is a truthy object with a truthy `uid`, and then yields that uid; a transport failure is re-raised as such; a falsy `result`, or an object `result` without a truthy `uid`, raises the generic authentication failure; a truthy non-object `result` or a decoded non-object body raises the `.get` AttributeError |
| `Odoo.OdooService.Authenticate` | myapp/services/odoo_service.py:27-54 | sends exactly the login request; `uid` becomes the returned uid on success and is left as it was on any failure, which is raised |
| `Odoo.Connect` | myapp/services/odoo_service.py:11-25 | building a service sends one login request; a login failure propagates and no service results; otherwise a fresh service with the configured credentials and the returned uid |
| `Odoo.CollectionUrl` | myapp/services/odoo_service.py:67 | the URL starts with `<api_url>/api/stap_models` and has nothing more exactly when the record id is falsy (None or 0); the model name is not an input |
| `Odoo.UrlRoundTrip` | myapp/services/odoo_service.py:67 | the record id can be read back from the URL: the id itself when truthy, none otherwise |
| `Odoo.UrlInjective` | myapp/services/odoo_service.py:67 | two URLs for truthy ids are equal only when the ids are |
| `Decimal.NatToString` | myapp/services/odoo_service.py:67 | `str()` of a natural number is a non-empty string of digits with no leading zero |
| `Decimal.IntToString` | myapp/services/odoo_service.py:67 | `str()` of an int starts with `-` exactly for negatives and is otherwise all digits |
| `Decimal.ParseIntToString` | myapp/services/odoo_service.py:67 | parsing `str(i)` gives back `i` |
| `Decimal.IntToStringInjective` | myapp/services/odoo_service.py:67 | distinct ints have distinct `str()` |
| `Odoo.CallRequest` | myapp/services/odoo_service.py:67-80 | the gateway request uses the given verb as the HTTP method and the collection URL; its body is the JSON-RPC 2.0 `call` envelope with `params.data` equal to `args` when truthy and `[]` otherwise |
| `Odoo.Classify` | myapp/services/odoo_service.py:81-89 | a transport failure is re-raised; a decoded object with an `error` key raises that error; any other object returns its `result` (None when absent); the two outcomes are exclusive; a decoded non-object raises |
| `Odoo.OdooService.CallMethod` | myapp/services/odoo_service.py:56-89 | sends exactly one request, `CallRequest(api_url, verb, args, record_id)`, and returns the classification of its reply |
| `Odoo.OdooService.CreateRecord` | myapp/services/odoo_service.py:91-101 | one POST with `args=[data]` and no record id; returns the gateway result |
| `Odoo.OdooService.WriteRecord` | myapp/services/odoo_service.py:103-121 | one PUT with `data` itself as args and the record id in the URL; returns the gateway result unchanged |
| `Odoo.OdooService.UnlinkRecord` | myapp/services/odoo_service.py:123-140 | one DELETE with no args (so `data` is `[]`) and the record id in the URL; returns the gateway result unchanged |
| `Odoo.ReadShape` | myapp/services/odoo_service.py:151-159 | a falsy result gives None; a non-empty list gives its first element (a string its first character); any other truthy result raises |
| `Odoo.OdooService.ReadRecord` | myapp/services/odoo_service.py:142-159 | one request with verb `read`, args `[[record_id], fields]` and no id in the URL; a gateway error propagates, else the result is reshaped by `ReadShape` |
| `Odoo.SearchArgs` | myapp/services/odoo_service.py:175-179 | the positional arguments are a one-element list: the domain when truthy, else the empty domain `[]` |
| `Odoo.SearchKeywords` | myapp/services/odoo_service.py:181-186 | the keyword dict has exactly fields, limit, offset and order; empty fields become `[]` and an empty order becomes `""` |
| `Odoo.OdooService.SearchRecords` | myapp/services/odoo_service.py:161-192 | always raises the unexpected-keyword `TypeError` for `kwargs`; the method changes nothing, so no request is sent (defaults limit 80, offset 0) |
| `Values.Subscript` | myapp/admin.py:39 | `v[key]` succeeds exactly on a dict holding the key and then yields its value |
| `Values.SubscriptAt` | myapp/services/odoo_service.py:156 | `v[i]` succeeds exactly on a list or string long enough, yielding the element or one-character string |
| `Admin.CreatedId` | myapp/admin.py:39 | extracting `result["data"][0]["id"]` succeeds iff `result` is a dict whose `data` is a non-empty list whose first element is a dict with an integer or null `id`; it then yields that id (None for null) |
| `Admin.CreatedIdOfRecord` | myapp/admin.py:39 | an integer id at `data[0].id` is extracted, whatever other keys and records the result holds |
| `Admin.SaveModel` | myapp/admin.py:14-45 | the new log, `odoo_id` and outcome are exactly `SaveModelEffect` of the old log and the entity as saved |
| `Admin.SaveStoresLocallyFirst` | myapp/admin.py:18-19 | the first event of `save_model` is the local save of the entity |
| `Admin.SaveRaisesOnlyBeforeTry` | myapp/admin.py:18-45 | `save_model` raises iff the local save or the service construction fails; every later error is swallowed |
| `Admin.SaveLoginFailure` | myapp/admin.py:18-19 | a construction failure propagates after the local save, with no further request and `odoo_id` unchanged |
| `Admin.SaveChangeWritesOnce` | myapp/admin.py:21-29 | on change, exactly one PUT of `{"name": name}` for the current `odoo_id`, even a null one; no create; `odoo_id` unchanged |
| `Admin.SaveNewCreatesOnce` | myapp/admin.py:32-40 | on create, exactly one POST of `[{"name": name}]`; an extracted id becomes `odoo_id` and is saved with `update_fields=["odoo_id"]`; a remote error or failed extraction leaves `odoo_id` unchanged with nothing further; the hook does not raise |
| `Admin.SaveNewWidgetGets42` | myapp/admin.py:32-40 | creating "Widget" when Odoo answers `{"result": {"data": [{"id": 42}]}}` sets `odoo_id` to 42 |
| `Admin.SaveModelWithinSyncSource` | myapp/admin.py:14-45 | with the marker set to "odoo", `save_model` has the same effect, remote calls included, and the marker is None afterwards |
| `Admin.DeleteModel` | myapp/admin.py:47-58 | the new log and outcome are exactly `DeleteModelEffect` of the old log and the entity |
| `Admin.DeleteLoginFailure` | myapp/admin.py:51 | a construction failure propagates before the `try`: no unlink and no local delete |
| `Admin.DeleteUnlinksIffLinked` | myapp/admin.py:52-58 | once connected, an unlink of the current `odoo_id` is sent exactly when it is truthy; the local delete follows whatever it returned or raised; the hook raises only if the local delete fails |
| `Admin.StapModel.constructor` | myapp/models/stap_model.py:5-7 | an entity holds a name and a nullable `odoo_id` |
| `Context.CurrentSyncSource` | myapp/context.py:22-23 | `get_current_sync_source()` reads the context module's `sync_source` slot; a slot never set reads None (`Context.ThreadLocal.constructor`) |
| `Context.ThreadLocal.constructor` | myapp/context.py:22-23 | before any context is entered the marker reads None |
| `Context.SyncSourceContext.constructor` | myapp/context.py:12-13 | construction only stores the source; the marker is not touched |
| `Context.SyncSourceContext.Enter` | myapp/context.py:15-16 | entering sets the marker to the context's source |
| `Context.SyncSourceContext.Exit` | myapp/context.py:18-19 | exiting sets the marker to None, whatever it was before entry, and does not suppress the pending exception |
| `Context.WithSyncSource` | myapp/context.py:12-19 | inside `with SyncSourceContext(s)` the body reads `s`; its outcome, an exception included, is the block's; afterwards the marker is None |
| `Context.NestedSyncSources` | myapp/context.py:15-19 | after leaving an inner context inside an outer one, the marker is None, not the outer source |
| `Middleware.SyncContextMiddleware.constructor` | myapp/middleware.py:11-14 | the middleware keeps the handler and the class-level slot |
| `Middleware.SyncContextMiddleware.Call` | myapp/middleware.py:16-20 | the handler runs with the middleware slot at "odoo", whatever the request, and with `get_current_sync_source()` unchanged; the response is the handler's; afterwards the slot is None, or still "odoo" if the handler raised |

## Left out

- HTTP transport, `json.dumps` and `response.json()`: abstracted as `World.Send`. A reply is a fixed function of the request and the log so far, so session cookies are not modelled. The constant `Content-Type` header is not modelled.
- The local database: abstracted as `World.Store`, which may refuse a write. The 255-character limit on `name` and the uniqueness of `odoo_id` are among the reasons it may refuse; they are not modelled separately.
- Logging: it has no effect on state.
- JSON floats: `Json` numbers are integers.
- Config values: modelled as strings. A non-string value would reach the URL through `str()`.
- Record ids: modelled as the entity's nullable int. `str()` of other Python values in the URL is not modelled.
- Admin.CreatedId: an id at `data[0].id` that is neither an integer nor null (a string, a bool, a float) is treated as a failed extraction. In Python it would be assigned to `obj.odoo_id`, and the database would then coerce or refuse it.
- Django's `request` and `form` arguments of the hooks: unused by the code. The hooks' `OdooService()` reads only the settings.
- Context.SyncSourceContext.Exit: the exception arguments are accepted and ignored, as in the code.
- Middleware.SyncContextMiddleware.Call: the handler is a function of the request and the two markers. A handler that itself changes a marker is not modelled.
- `threading.local` is one slot per thread. Concurrency is not modelled. The context module's slot is passed explicitly instead of being a module global.
- The REST views, serializers and URL routing: thin framework wiring, not part of this model.
