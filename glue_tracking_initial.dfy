/**
 * lambda/glue-tracking-initial: a message describing a discovered data source, read from the
 * Glue tracking queue, becomes a new tracker item with both stage flags down.
 */
module GlueTrackingInitial {
  import opened Errors
  import opened Json
  import opened Validation
  import opened TrackerRecords
  import opened Aws
  import opened Tracker
  import opened SqsEvent

  const TrackerTableVar := "GLUE_TRACKER_TABLE_NAME"

  /** The item initialised from a message body under the fresh id `id`; both fields are read with `body[...]`. */
  function InitialRecord(body: Value, id: string): (r: Result<TrackerRecord>)
    ensures r.Ok? <==> body.Obj? && "data_source_type" in body.fields && "data_source_attrs" in body.fields
    ensures r.Ok? ==>
      && r.value.id == id && !r.value.glueJobCreated && !r.value.dataCatalogEntry
      && r.value.catalogTableName.None? && r.value.catalogDbName.None?
      && r.value.dataSourceType == body.fields["data_source_type"]
      && r.value.dataSourceAttrs == body.fields["data_source_attrs"]
    ensures body.Obj? && "data_source_type" !in body.fields ==> r == Err(KeyError("data_source_type"))
    ensures body.Obj? && "data_source_type" in body.fields && "data_source_attrs" !in body.fields ==>
      r == Err(KeyError("data_source_attrs"))
  {
    var sourceType :- Key(body, "data_source_type");
    var attrs :- Key(body, "data_source_attrs");
    Ok(TrackerRecord(id, sourceType, false, false, None, None, attrs))
  }

  /** A new item is staged, and it is waiting for a catalog entry exactly when it describes an S3 source. */
  lemma InitialRecordStaged(body: Value, id: string)
    requires InitialRecord(body, id).Ok?
    ensures Staged(InitialRecord(body, id).value)
    ensures Matches(CatalogPending, InitialRecord(body, id).value) <==> body.fields["data_source_type"] == Str("s3")
    ensures !Matches(JobPending, InitialRecord(body, id).value)
    ensures forall t: string :: !Matches(Catalogued(t), InitialRecord(body, id).value)
  {
  }

  /** What follows the prologue: the tracker table is required, then the item is put if no item has its id. */
  function AfterReceive(env: Env, body: Result<Value>, id: string): Plan {
    match body
    case Err(e) => Raise(e)
    case Ok(b) =>
      match Required(env, TrackerTableVar)
      case Err(e) => Raise(e)
      case Ok(table) =>
        match InitialRecord(b, id)
        case Err(e) => Raise(e)
        case Ok(rec) => Calls([Dynamo(PutTrackerItem(table, rec))])
  }

  /** What `lambda_handler` does when every call goes through; `id` is the uuid it draws. */
  function HandlerPlan(env: Env, event: Value, decode: string -> Option<Value>, id: string): Plan {
    Then(ReceivePlan(env, event), AfterReceive(env, MessageBody(event, decode), id))
  }

  /**
   * The message leaves the queue before the handler looks at the table setting or the body:
   * without `GLUE_TRACKER_TABLE_NAME` it is deleted and lost.
   */
  lemma DeletedBeforeTableChecked(env: Env, event: Value, decode: string -> Option<Value>, id: string)
    requires MessageAttributesOf(event).Ok? && MessageAttributesOf(event).value.Some?
    requires Required(env, "SQS_QUEUE_URL").Ok? && MessageBody(event, decode).Ok?
    requires Required(env, TrackerTableVar).Err?
    ensures HandlerPlan(env, event, decode, id) ==
      Plan([Sqs(DeleteMessage(env["SQS_QUEUE_URL"], MessageAttributesOf(event).value.value.receiptHandle))],
        Some(MissingEnvironmentVariable(TrackerTableVar)))
  {
  }

  /**
   * A handler run that ends without error, after the put was accepted by the service, leaves an
   * item under `id`: the one that was there, or else the new item. No other item changes.
   */
  lemma StoredAfterRun(outcome: nat -> Reply, before: seq<Request>, after: seq<Request>, items: map<string, TrackerRecord>,
                       env: Env, event: Value, decode: string -> Option<Value>, id: string, r: Outcome)
    requires Carried(outcome, before, after, HandlerPlan(env, event, decode, id), r)
    requires MessageBody(event, decode).Ok? && Required(env, TrackerTableVar).Ok?
    requires InitialRecord(MessageBody(event, decode).value, id).Ok?
    requires r.Ok? && outcome(|after| - 1).Response?
    ensures var e := Effect(items, outcome, |before|, after[|before|..]);
      && id in e
      && e == if id in items then items else items[id := InitialRecord(MessageBody(event, decode).value, id).value]
  {
    var p := HandlerPlan(env, event, decode, id);
    var rp := ReceivePlan(env, event);
    var rec := InitialRecord(MessageBody(event, decode).value, id).value;
    var put := Dynamo(PutTrackerItem(env[TrackerTableVar], rec));
    ReceiveOnlyDeletes(env, event);
    AllProceedRunsAll(outcome, |before|, p.calls);
    assert p.calls == rp.calls + [put];
    assert p.calls[..|p.calls|] == p.calls;
    assert after[|before|..] == rp.calls + [put];
    EffectOfOthers(items, outcome, |before|, rp.calls);
    EffectAppend(items, outcome, |before|, rp.calls, [put]);
    assert [put][..0] == [];
  }

  /** A prologue that produced no body ends the handler with its error, the table untouched. */
  lemma ComposedFailure(outcome: nat -> Reply, before: seq<Request>, mid: seq<Request>, items: map<string, TrackerRecord>,
                        env: Env, event: Value, decode: string -> Option<Value>, id: string)
    requires Carried(outcome, before, mid, ReceivePlan(env, event), Run(outcome, |before|, ReceivePlan(env, event)))
    requires Received(Run(outcome, |before|, ReceivePlan(env, event)), event, decode).Err?
    ensures Carried(outcome, before, mid, HandlerPlan(env, event, decode, id),
      Err(Received(Run(outcome, |before|, ReceivePlan(env, event)), event, decode).error))
    ensures items == Effect(items, outcome, |before|, mid[|before|..])
  {
    ReceiveOnlyDeletes(env, event);
    CarriedWritesNothing(items, outcome, before, mid, ReceivePlan(env, event), Run(outcome, |before|, ReceivePlan(env, event)));
    ReceivedNothing(outcome, before, mid, env, event, decode, AfterReceive(env, MessageBody(event, decode), id));
  }

  /** The prologue and the write step, each carried out, carry out the handler; only the write step touches the table. */
  lemma ComposedSuccess(outcome: nat -> Reply, before: seq<Request>, mid: seq<Request>, after: seq<Request>,
                        items: map<string, TrackerRecord>, written: map<string, TrackerRecord>,
                        env: Env, event: Value, decode: string -> Option<Value>, id: string, r: Outcome)
    requires Carried(outcome, before, mid, ReceivePlan(env, event), Run(outcome, |before|, ReceivePlan(env, event)))
    requires Received(Run(outcome, |before|, ReceivePlan(env, event)), event, decode).Ok?
    requires Carried(outcome, mid, after, AfterReceive(env, MessageBody(event, decode), id), r)
    requires written == Effect(items, outcome, |mid|, after[|mid|..])
    ensures Carried(outcome, before, after, HandlerPlan(env, event, decode, id), r)
    ensures written == Effect(items, outcome, |before|, after[|before|..])
  {
    ReceiveOnlyDeletes(env, event);
    CarriedThenEffect(outcome, before, mid, after, items, written, ReceivePlan(env, event),
      Run(outcome, |before|, ReceivePlan(env, event)), AfterReceive(env, MessageBody(event, decode), id), r);
  }

  /** `lambda_handler`, drawing `id` for the new item. */
  method Handle(provider: Provider, table: TrackerTable, env: Env, event: Value, decode: string -> Option<Value>, id: string)
    returns (r: Outcome)
    requires table.Valid()
    modifies provider, table
    ensures table.Valid()
    ensures Carried(provider.outcome, old(provider.calls), provider.calls, HandlerPlan(env, event, decode, id), r)
    ensures table.items == Effect(old(table.items), provider.outcome, |old(provider.calls)|, provider.calls[|old(provider.calls)|..])
  {
    ghost var before := provider.calls;
    var body := Receive(provider, env, event, decode);
    ghost var mid := provider.calls;
    if body.Err? {
      ComposedFailure(provider.outcome, before, mid, table.items, env, event, decode, id);
      return Err(body.error);
    }
    r := Initialise(provider, table, env, body.value, id);
    ComposedSuccess(provider.outcome, before, mid, provider.calls, old(table.items), table.items, env, event, decode, id, r);
  }

  /** The part of `lambda_handler` after the prologue, for a decoded body. */
  method Initialise(provider: Provider, table: TrackerTable, env: Env, body: Value, id: string) returns (r: Outcome)
    requires table.Valid()
    modifies provider, table
    ensures table.Valid()
    ensures Carried(provider.outcome, old(provider.calls), provider.calls, AfterReceive(env, Ok(body), id), r)
    ensures table.items == Effect(old(table.items), provider.outcome, |old(provider.calls)|, provider.calls[|old(provider.calls)|..])
  {
    ghost var before := provider.calls;
    var tableName := Required(env, TrackerTableVar);
    var rec := InitialRecord(body, id);
    if tableName.Err? || rec.Err? {
      CarriedToEnd(provider.outcome, before, AfterReceive(env, Ok(body), id));
      assert provider.calls[|before|..] == [];
      return Err(if tableName.Err? then tableName.error else rec.error);
    }
    var put := Dynamo(PutTrackerItem(tableName.value, rec.value));
    var reply := provider.Invoke(put);
    InitialRecordStaged(body, id);
    r := table.ConditionalPut(tableName.value, rec.value, reply);
    CarriedSingle(provider.outcome, before, put);
    assert provider.calls[|before|..] == [put];
    assert [put][..0] == [];
  }
}
