/**
 * lambda/rds-glue-tracking-initial: a Glue table created in the catalog database by an RDS
 * crawler becomes a tracker item that already has its catalog entry.
 */
module RdsGlueTrackingInitial {
  import opened Errors
  import opened Json
  import opened Validation
  import opened TrackerRecords
  import opened Aws
  import opened Tracker

  const CatalogDbVar := "CATALOG_DB_NAME"
  const TrackerTableVar := "DDB_TABLE_NAME"

  /** `_extract_valid_event`: the `requestParameters` of a CreateTable call reported by aws.glue. */
  function ExtractValidEvent(event: Value): (r: Result<Value>)
    ensures r.Ok? <==> EventMatches(event, "aws.glue", "CreateTable", "requestParameters")
    ensures r.Ok? ==> r.value == event.fields["detail"].fields["requestParameters"]
  {
    ExtractDetail(event, "aws.glue", "CreateTable", "requestParameters")
  }

  /** `table_input["parameters"]` when `table_input.get("parameters")` is truthy, else `{}`. */
  function SourceAttrs(tableInput: Value): (r: Result<Value>)
    ensures r.Ok? <==> tableInput.Obj?
    ensures r.Ok? && "parameters" in tableInput.fields && Truthy(tableInput.fields["parameters"]) ==>
      r.value == tableInput.fields["parameters"]
    ensures r.Ok? && !("parameters" in tableInput.fields && Truthy(tableInput.fields["parameters"])) ==>
      r.value == Obj(map[])
  {
    var p :- Get(tableInput, "parameters");
    Ok(if Truthy(p) then p else Obj(map[]))
  }

  /** The item written for the table `tableInput` of the catalog database `databaseName`, under the fresh id `id`. */
  function CatalogRecord(tableInput: Value, databaseName: Value, id: string): (r: Result<TrackerRecord>)
    ensures r.Ok? <==> tableInput.Obj? && "name" in tableInput.fields
    ensures tableInput.Obj? && "name" !in tableInput.fields ==> r == Err(KeyError("name"))
    ensures r.Ok? ==>
      && r.value.id == id && r.value.dataSourceType == Str("rds")
      && r.value.dataCatalogEntry && !r.value.glueJobCreated
      && r.value.catalogTableName == Some(tableInput.fields["name"]) && r.value.catalogDbName == Some(databaseName)
      && Ok(r.value.dataSourceAttrs) == SourceAttrs(tableInput)
  {
    var attrs :- SourceAttrs(tableInput);
    var name :- Key(tableInput, "name");
    Ok(TrackerRecord(id, Str("rds"), false, true, Some(name), Some(databaseName), attrs))
  }

  /**
   * An RDS item arrives already catalogued and without a job: the RDS tag reporter selects it,
   * the S3 stage handlers never do.
   */
  lemma CatalogRecordSelection(tableInput: Value, databaseName: Value, id: string)
    requires CatalogRecord(tableInput, databaseName, id).Ok?
    ensures var rec := CatalogRecord(tableInput, databaseName, id).value;
      && Staged(rec) && Matches(Catalogued("rds"), rec)
      && !Matches(CatalogPending, rec) && !Matches(JobPending, rec) && !Matches(Catalogued("s3"), rec)
  {
  }

  /** The write `lambda_handler` decides on: into which table, which item. */
  datatype Write = Write(table: string, record: TrackerRecord)

  /**
   * Everything `lambda_handler` checks before its one call: an error, nothing to do (a table of
   * another database), or the item to put.
   */
  function PendingWrite(env: Env, event: Value, id: string): Result<Option<Write>> {
    var catalogDb :- Required(env, CatalogDbVar);
    var params :- ExtractValidEvent(event);
    var _ :- CheckMissingField(params, "databaseName");
    var databaseName := params.fields["databaseName"];
    if databaseName != Str(catalogDb) then Ok(None)
    else
      var table :- Required(env, TrackerTableVar);
      var _ :- CheckMissingField(params, "tableInput");
      var rec :- CatalogRecord(params.fields["tableInput"], databaseName, id);
      Ok(Some(Write(table, rec)))
  }

  /** What `lambda_handler` does when every call goes through; `id` is the uuid it draws. */
  function HandlerPlan(env: Env, event: Value, id: string): Plan {
    match PendingWrite(env, event, id)
    case Err(e) => Raise(e)
    case Ok(None) => Done
    case Ok(Some(w)) => Calls([Dynamo(PutTrackerItem(w.table, w.record))])
  }

  /** The catalog database setting is required before the event is even looked at. */
  lemma CatalogDbCheckedFirst(env: Env, event: Value, id: string)
    requires Required(env, CatalogDbVar).Err?
    ensures HandlerPlan(env, event, id) == Raise(MissingEnvironmentVariable(CatalogDbVar))
  {
  }

  /** Tables of any other database are ignored: no call, no error, and the tracker table setting is not consulted. */
  lemma OtherDatabasesIgnored(env: Env, event: Value, id: string, env2: Env)
    requires Required(env, CatalogDbVar).Ok? && ExtractValidEvent(event).Ok?
    requires CheckMissingField(ExtractValidEvent(event).value, "databaseName").Ok?
    requires ExtractValidEvent(event).value.fields["databaseName"] != Str(env[CatalogDbVar])
    requires env2 == env - {TrackerTableVar}
    ensures HandlerPlan(env, event, id) == Done
    ensures HandlerPlan(env2, event, id) == Done
  {
    assert Required(env2, CatalogDbVar) == Required(env, CatalogDbVar);
  }

  /** At most one call is made, and it is a put into the configured tracker table. */
  lemma AtMostOnePut(env: Env, event: Value, id: string)
    ensures |HandlerPlan(env, event, id).calls| <= 1
    ensures forall c | c in HandlerPlan(env, event, id).calls ::
      c.Dynamo? && c.dynamo.PutTrackerItem? && c.dynamo.table == env[TrackerTableVar] && c.dynamo.record.id == id && Matches(Catalogued("rds"), c.dynamo.record)
  {
  }

  /** `lambda_handler`, drawing `id` for the new item. */
  method Handle(provider: Provider, table: TrackerTable, env: Env, event: Value, id: string) returns (r: Outcome)
    requires table.Valid()
    modifies provider, table
    ensures table.Valid()
    ensures Carried(provider.outcome, old(provider.calls), provider.calls, HandlerPlan(env, event, id), r)
    ensures table.items == Effect(old(table.items), provider.outcome, |old(provider.calls)|, provider.calls[|old(provider.calls)|..])
  {
    ghost var before := provider.calls;
    var w := PendingWrite(env, event, id);
    if w.Err? || w.value.None? {
      CarriedToEnd(provider.outcome, before, HandlerPlan(env, event, id));
      assert provider.calls[|before|..] == [];
      return if w.Err? then Err(w.error) else Pass;
    }
    var put := Dynamo(PutTrackerItem(w.value.value.table, w.value.value.record));
    var reply := provider.Invoke(put);
    AtMostOnePut(env, event, id);
    EffectSingle(table.items, provider.outcome, |before|, put);
    r := table.ConditionalPut(put.dynamo.table, put.dynamo.record, reply);
    CarriedSingle(provider.outcome, before, put);
    assert provider.calls[|before|..] == [put];
  }
}
