/** The admin hooks of StapModelAdmin, which mirror local saves and deletes
    of a StapModel to Odoo. Each hook first saves or connects, then makes
    its remote call inside a catch-all `try`. */
module Admin {

  import opened Values
  import opened Environment
  import opened Odoo
  import opened Context

  const RemoteModel := "stap.model"

  /** The local entity: `name` (at most 255 characters, checked by the admin
      form) and the nullable, unique `odoo_id`. */
  class StapModel {
    var name: string
    var odooId: Option<int>

    constructor (name: string, odooId: Option<int>)
      ensures this.name == name && this.odooId == odooId
    {
      this.name := name;
      this.odooId := odooId;
    }

    function Snapshot(): Row
      reads this
    {
      Row(name, odooId)
    }
  }

  /** The fields the hooks send to Odoo: `{"name": obj.name}`. */
  function NameFields(name: string): Json {
    JObj(map["name" := JStr(name)])
  }

  /** `result` holds an integer or null id at `data[0].id`: a dict whose
      `data` is a non-empty list whose first element is a dict with an `id`. */
  predicate IdPathPresent(result: Json) {
    && result.JObj? && "data" in result.fields
    && result.fields["data"].JArr? && |result.fields["data"].items| > 0
    && result.fields["data"].items[0].JObj? && "id" in result.fields["data"].items[0].fields
    && (IdAt(result).JNum? || IdAt(result).JNull?)
  }

  /** The value at `data[0].id`, where that path exists. */
  function IdAt(result: Json): Json
    requires && result.JObj? && "data" in result.fields
             && result.fields["data"].JArr? && |result.fields["data"].items| > 0
             && result.fields["data"].items[0].JObj? && "id" in result.fields["data"].items[0].fields
  {
    result.fields["data"].items[0].fields["id"]
  }

  /** `result["data"][0]["id"]` as a nullable id. An integer or null id is
      assigned; any other path or value raises. */
  function CreatedId(result: Json): (r: Outcome<Option<int>>)
    ensures r.Ok? <==> IdPathPresent(result)
    ensures r.Ok? ==> r.value == (if IdAt(result).JNum? then Some(IdAt(result).n) else None)
  {
    var data :- Subscript(result, "data");
    var first :- SubscriptAt(data, 0);
    var id :- Subscript(first, "id");
    match id
    case JNum(n) => Ok(Some(n))
    case JNull => Ok(None)
    case _ => Raised(WrongShape)  // a non-integer id is not modelled
  }

  /** An integer id at `data[0].id` is read back whatever else the result holds. */
  lemma CreatedIdOfRecord(n: int, first: map<string, Json>, rest: seq<Json>, top: map<string, Json>)
    ensures CreatedId(JObj(top["data" := JArr([JObj(first["id" := JNum(n)])] + rest)])) == Ok(Some(n))
  {
  }

  /** What a hook leaves behind: the event log, the entity's `odoo_id`, and
      what the hook raises. */
  datatype Effect = Effect(events: seq<Event>, odooId: Option<int>, outcome: Outcome<()>)

  /** `save_model(request, obj, form, change)` run against the world's
      `answer` and `rejects` from the log `before`, with `row` the entity as
      the form left it and `c` the settings `OdooService()` reads. */
  function SaveModelEffect(answer: (seq<Event>, Request) -> Reply, rejects: (seq<Event>, StoreOp) -> bool,
                           before: seq<Event>, row: Row, change: bool, c: Credentials): Effect
  {
    var saved := before + [Stored(Save(row))];
    if rejects(before, Save(row)) then Effect(saved, row.odooId, Raised(DatabaseError))
    else
      var connected := saved + [Sent(AuthRequest(c))];
      var login := AuthResult(answer(saved, AuthRequest(c)));
      if login.Raised? then Effect(connected, row.odooId, Raised(login.error))
      else if change then
        Effect(connected + [Sent(CallRequest(c.apiUrl, "put", NameFields(row.name), row.odooId))], row.odooId, Ok(()))
      else
        var create := CallRequest(c.apiUrl, "post", JArr([NameFields(row.name)]), None);
        var created := connected + [Sent(create)];
        var result := Classify(answer(connected, create));
        var id := if result.Raised? then Raised(result.error) else CreatedId(result.value);
        if id.Raised? then Effect(created, row.odooId, Ok(()))
        else Effect(created + [Stored(SaveFields(["odoo_id"], Row(row.name, id.value)))], id.value, Ok(()))
  }

  /** `delete_model(request, obj)`, in the same terms. */
  function DeleteModelEffect(answer: (seq<Event>, Request) -> Reply, rejects: (seq<Event>, StoreOp) -> bool,
                             before: seq<Event>, row: Row, c: Credentials): Effect
  {
    var connected := before + [Sent(AuthRequest(c))];
    var login := AuthResult(answer(before, AuthRequest(c)));
    if login.Raised? then Effect(connected, row.odooId, Raised(login.error))
    else
      var remote := if Truthy(IdJson(row.odooId))
        then connected + [Sent(CallRequest(c.apiUrl, "delete", JNull, row.odooId))]
        else connected;
      var deleted := remote + [Stored(Delete(row))];
      Effect(deleted, row.odooId, if rejects(remote, Delete(row)) then Raised(DatabaseError) else Ok(()))
  }

  /** `StapModelAdmin.save_model`. The local save comes first and its failure
      propagates; so does a failure to construct (authenticate) the service;
      everything after that is caught and logged. */
  method SaveModel(settingsConfig: Option<map<string, string>>, world: World, obj: StapModel, change: bool)
    returns (r: Outcome<()>)
    modifies world`events, obj`odooId
    ensures Effect(world.events, obj.odooId, r)
      == SaveModelEffect(world.answer, world.rejects, old(world.events), old(obj.Snapshot()), change,
                         Configure(None, settingsConfig))
  {
    var saved := world.Store(Save(obj.Snapshot()));
    if !saved {
      return Raised(DatabaseError);
    }
    var connected := Connect(settingsConfig, world);
    if connected.Raised? {
      return Raised(connected.error);
    }
    var odoo := connected.value;
    if change {
      var written := odoo.WriteRecord(RemoteModel, obj.odooId, NameFields(obj.name));
    } else {
      var created := odoo.CreateRecord(RemoteModel, NameFields(obj.name));
      var id := if created.Raised? then Raised(created.error) else CreatedId(created.value);
      if id.Ok? {
        obj.odooId := id.value;
        var stored := world.Store(SaveFields(["odoo_id"], obj.Snapshot()));
      }
    }
    r := Ok(());
  }

  /** `StapModelAdmin.delete_model`. Constructing the service precedes the
      `try`, so its failure propagates and nothing is deleted locally; the
      unlink runs only for a truthy `odoo_id` and its failure is swallowed;
      the local delete follows whatever the remote outcome. */
  method DeleteModel(settingsConfig: Option<map<string, string>>, world: World, obj: StapModel)
    returns (r: Outcome<()>)
    modifies world`events
    ensures Effect(world.events, obj.odooId, r)
      == DeleteModelEffect(world.answer, world.rejects, old(world.events), obj.Snapshot(), Configure(None, settingsConfig))
  {
    var connected := Connect(settingsConfig, world);
    if connected.Raised? {
      return Raised(connected.error);
    }
    var odoo := connected.value;
    if Truthy(IdJson(obj.odooId)) {
      var unlinked := odoo.UnlinkRecord(RemoteModel, obj.odooId);
    }
    var deleted := world.Store(Delete(obj.Snapshot()));
    r := if deleted then Ok(()) else Raised(DatabaseError);
  }

  /** `with SyncSourceContext("odoo"): save_model(...)`: the marker is
      set while the hook runs, and the hook behaves exactly as without it. */
  method SaveModelWithinSyncSource(locals: ThreadLocal, settingsConfig: Option<map<string, string>>,
                                   world: World, obj: StapModel, change: bool)
    returns (r: Outcome<()>)
    modifies locals, world`events, obj`odooId
    ensures CurrentSyncSource(locals) == None
    ensures Effect(world.events, obj.odooId, r)
      == SaveModelEffect(world.answer, world.rejects, old(world.events), old(obj.Snapshot()), change,
                         Configure(None, settingsConfig))
  {
    var context := new SyncSourceContext(Some("odoo"));
    context.Enter(locals);
    assert CurrentSyncSource(locals) == Some("odoo");
    r := SaveModel(settingsConfig, world, obj, change);
    var suppressed := context.Exit(locals, if r.Raised? then Some(r.error) else None);
  }

  // Properties of the save hook, for every endpoint and database behaviour.

  /** The local save is the first thing `save_model` does. */
  lemma SaveStoresLocallyFirst(answer: (seq<Event>, Request) -> Reply, rejects: (seq<Event>, StoreOp) -> bool,
                               before: seq<Event>, row: Row, change: bool, c: Credentials)
    ensures var e := SaveModelEffect(answer, rejects, before, row, change, c);
      |e.events| > |before| && e.events[..|before| + 1] == before + [Stored(Save(row))]
  {
  }

  /** `save_model` raises exactly when the local save or the construction of
      the service fails; remote errors afterwards are swallowed. */
  lemma SaveRaisesOnlyBeforeTry(answer: (seq<Event>, Request) -> Reply, rejects: (seq<Event>, StoreOp) -> bool,
                                before: seq<Event>, row: Row, change: bool, c: Credentials)
    ensures var e := SaveModelEffect(answer, rejects, before, row, change, c);
      e.outcome.Raised? <==>
        rejects(before, Save(row)) || AuthResult(answer(before + [Stored(Save(row))], AuthRequest(c))).Raised?
  {
  }

  /** A login failure propagates after the local save, with no further request. */
  lemma SaveLoginFailure(answer: (seq<Event>, Request) -> Reply, rejects: (seq<Event>, StoreOp) -> bool,
                         before: seq<Event>, row: Row, change: bool, c: Credentials)
    requires !rejects(before, Save(row))
    requires AuthResult(answer(before + [Stored(Save(row))], AuthRequest(c))).Raised?
    ensures var e := SaveModelEffect(answer, rejects, before, row, change, c);
      && e.events == before + [Stored(Save(row)), Sent(AuthRequest(c))]
      && e.outcome == Raised(AuthResult(answer(before + [Stored(Save(row))], AuthRequest(c))).error)
      && e.odooId == row.odooId
  {
  }

  /** On change: exactly one PUT of `{"name": ...}` for the current `odoo_id`
      (even a null one), no create, and `odoo_id` is untouched. */
  lemma SaveChangeWritesOnce(answer: (seq<Event>, Request) -> Reply, rejects: (seq<Event>, StoreOp) -> bool,
                             before: seq<Event>, row: Row, c: Credentials)
    requires !rejects(before, Save(row))
    requires AuthResult(answer(before + [Stored(Save(row))], AuthRequest(c))).Ok?
    ensures var e := SaveModelEffect(answer, rejects, before, row, true, c);
      && e.events == before + [Stored(Save(row)), Sent(AuthRequest(c)),
                               Sent(CallRequest(c.apiUrl, "put", NameFields(row.name), row.odooId))]
      && e.odooId == row.odooId && e.outcome == Ok(())
  {
  }

  /** On create: exactly one POST of `[{"name": ...}]`; when its result holds
      an id at `data[0].id` that id is stored with `update_fields=["odoo_id"]`,
      otherwise `odoo_id` is unchanged and nothing more is done. */
  lemma SaveNewCreatesOnce(answer: (seq<Event>, Request) -> Reply, rejects: (seq<Event>, StoreOp) -> bool,
                           before: seq<Event>, row: Row, c: Credentials)
    requires !rejects(before, Save(row))
    requires AuthResult(answer(before + [Stored(Save(row))], AuthRequest(c))).Ok?
    ensures var connected := before + [Stored(Save(row)), Sent(AuthRequest(c))];
      var create := CallRequest(c.apiUrl, "post", JArr([NameFields(row.name)]), None);
      var result := Classify(answer(connected, create));
      var e := SaveModelEffect(answer, rejects, before, row, false, c);
      && e.outcome == Ok(())
      && (result.Ok? && CreatedId(result.value).Ok? ==>
            && e.odooId == CreatedId(result.value).value
            && e.events == connected + [Sent(create), Stored(SaveFields(["odoo_id"], Row(row.name, e.odooId)))])
      && (result.Raised? || CreatedId(result.value).Raised? ==>
            e.odooId == row.odooId && e.events == connected + [Sent(create)])
  {
    assert before + [Stored(Save(row)), Sent(AuthRequest(c))]
        == before + [Stored(Save(row))] + [Sent(AuthRequest(c))];
  }

  /** Creating "Widget" when Odoo answers `{"result": {"data": [{"id": 42}]}}` stores odoo_id 42. */
  lemma SaveNewWidgetGets42(answer: (seq<Event>, Request) -> Reply, rejects: (seq<Event>, StoreOp) -> bool,
                            before: seq<Event>, c: Credentials)
    requires !rejects(before, Save(Row("Widget", None)))
    requires AuthResult(answer(before + [Stored(Save(Row("Widget", None)))], AuthRequest(c))).Ok?
    requires answer(before + [Stored(Save(Row("Widget", None))), Sent(AuthRequest(c))],
                    CallRequest(c.apiUrl, "post", JArr([NameFields("Widget")]), None))
          == Decoded(JObj(map["result" := JObj(map["data" := JArr([JObj(map["id" := JNum(42)])])])]))
    ensures SaveModelEffect(answer, rejects, before, Row("Widget", None), false, c).odooId == Some(42)
  {
    var saved := before + [Stored(Save(Row("Widget", None)))];
    assert saved + [Sent(AuthRequest(c))] == before + [Stored(Save(Row("Widget", None))), Sent(AuthRequest(c))];
    var empty: map<string, Json> := map[];
    var record := [JObj(empty["id" := JNum(42)])];
    assert record + [] == record;
    CreatedIdOfRecord(42, empty, [], empty);
  }

  // Properties of the delete hook.

  /** A login failure propagates: no unlink and no local delete. */
  lemma DeleteLoginFailure(answer: (seq<Event>, Request) -> Reply, rejects: (seq<Event>, StoreOp) -> bool,
                           before: seq<Event>, row: Row, c: Credentials)
    requires AuthResult(answer(before, AuthRequest(c))).Raised?
    ensures var e := DeleteModelEffect(answer, rejects, before, row, c);
      e.events == before + [Sent(AuthRequest(c))] && e.outcome == Raised(AuthResult(answer(before, AuthRequest(c))).error)
  {
  }

  /** Once connected: an unlink for the current `odoo_id` exactly when it is
      truthy, then the local delete whatever the unlink returned or raised. */
  lemma DeleteUnlinksIffLinked(answer: (seq<Event>, Request) -> Reply, rejects: (seq<Event>, StoreOp) -> bool,
                               before: seq<Event>, row: Row, c: Credentials)
    requires AuthResult(answer(before, AuthRequest(c))).Ok?
    ensures var e := DeleteModelEffect(answer, rejects, before, row, c);
      var unlink := if Truthy(IdJson(row.odooId)) then [Sent(CallRequest(c.apiUrl, "delete", JNull, row.odooId))] else [];
      && e.events == before + [Sent(AuthRequest(c))] + unlink + [Stored(Delete(row))]
      && (e.outcome.Raised? <==> rejects(before + [Sent(AuthRequest(c))] + unlink, Delete(row)))
  {
    var connected := before + [Sent(AuthRequest(c))];
    assert connected + [] == connected;
  }
}
