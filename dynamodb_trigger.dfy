/**
 * lambda/dynamodb-trigger: a new DynamoDB table is sent to the Glue tracking queue unless its
 * name is on the comma-separated exception list.
 */
module DynamoDbTrigger {
  import opened Errors
  import opened Json
  import opened Text
  import opened Validation
  import opened Aws

  const TrackingQueueVar := "GLUE_TRACKING_QUEUE_URL"
  const ExceptionTablesVar := "EXCEPTION_TABLE_NAMES"

  /** `_extract_valid_event`: the `responseElements` of a CreateTable call reported by aws.dynamodb. */
  function ExtractValidEvent(event: Value): (r: Result<Value>)
    ensures r.Ok? <==> EventMatches(event, "aws.dynamodb", "CreateTable", "responseElements")
    ensures r.Ok? ==> r.value == event.fields["detail"].fields["responseElements"]
  {
    ExtractDetail(event, "aws.dynamodb", "CreateTable", "responseElements")
  }

  /** `EXCEPTION_TABLE_NAMES.split(",")` when the setting is present and non-empty, else no exceptions. */
  function ExceptionTables(env: Env): (r: seq<string>)
    ensures Required(env, ExceptionTablesVar).Err? ==> r == []
    ensures Required(env, ExceptionTablesVar).Ok? ==> |r| > 0 && Join(r, ",") == env[ExceptionTablesVar]
    ensures forall i | 0 <= i < |r| :: !Contains(r[i], ",")
  {
    if Required(env, ExceptionTablesVar).Ok? then
      SplitJoin(env[ExceptionTablesVar], ",");
      Split(env[ExceptionTablesVar], ",")
    else []
  }

  /** `responseElements["tableDescription"]["tableName"]`, both checked present first. */
  function TableName(responseElements: Value): (r: Result<Value>)
    ensures r.Ok? <==>
      && responseElements.Obj? && "tableDescription" in responseElements.fields
      && Truthy(responseElements.fields["tableDescription"])
      && var d := responseElements.fields["tableDescription"];
      && d.Obj? && "tableName" in d.fields && Truthy(d.fields["tableName"])
    ensures r.Ok? ==> r.value == responseElements.fields["tableDescription"].fields["tableName"]
  {
    var _ :- CheckMissingField(responseElements, "tableDescription");
    var d := responseElements.fields["tableDescription"];
    var _ :- CheckMissingField(d, "tableName");
    Ok(d.fields["tableName"])
  }

  /** `name in list`: a value other than a string equals none of the listed names. */
  predicate Excluded(name: Value, exceptions: seq<string>) {
    name.Str? && name.s in exceptions
  }

  function Message(responseElements: Value): Value {
    Obj(map["data_source_type" := Str("dynamodb"), "data_source_attrs" := responseElements])
  }

  /** What `lambda_handler` does when every call goes through. */
  function HandlerPlan(event: Value, env: Env): Plan {
    match ExtractValidEvent(event)
    case Err(e) => Raise(e)
    case Ok(re) =>
      match Required(env, TrackingQueueVar)
      case Err(e) => Raise(e)
      case Ok(queue) =>
        match TableName(re)
        case Err(e) => Raise(e)
        case Ok(name) => if Excluded(name, ExceptionTables(env)) then Done else Calls([Sqs(SendMessage(queue, Message(re)))])
  }

  /**
   * For a valid event and a configured queue, the tracking queue receives
   * `{data_source_type: "dynamodb", data_source_attrs: responseElements}` exactly when the table
   * name is not one of the comma-separated exceptions, and nothing otherwise.
   */
  lemma TrackedUnlessExcepted(event: Value, env: Env)
    requires ExtractValidEvent(event).Ok? && Required(env, TrackingQueueVar).Ok?
    requires TableName(ExtractValidEvent(event).value).Ok?
    ensures var re := ExtractValidEvent(event).value;
      var name := TableName(re).value;
      var p := HandlerPlan(event, env);
      && p.fault.None?
      && Messages(p.calls, env[TrackingQueueVar]) == if Excluded(name, ExceptionTables(env)) then [] else [Message(re)]
  {
    var re := ExtractValidEvent(event).value;
    var p := HandlerPlan(event, env);
    if p.calls != [] {
      MessagesOfCall(p.calls[0], env[TrackingQueueVar]);
    }
  }

  /** Without an exception list, or for a name that contains a comma, the table is always sent. */
  lemma NeverExcepted(name: Value, env: Env)
    requires Required(env, ExceptionTablesVar).Err? || (name.Str? && Contains(name.s, ","))
    ensures !Excluded(name, ExceptionTables(env))
  {
  }

  /** The tracking queue is required before the table name is looked at, and nothing is sent without it. */
  lemma QueueCheckedFirst(event: Value, env: Env)
    requires ExtractValidEvent(event).Ok? && Required(env, TrackingQueueVar).Err?
    ensures HandlerPlan(event, env) == Raise(MissingEnvironmentVariable(TrackingQueueVar))
  {
  }

  /** `lambda_handler`. */
  method Handle(provider: Provider, env: Env, event: Value) returns (r: Outcome)
    modifies provider
    ensures Carried(provider.outcome, old(provider.calls), provider.calls, HandlerPlan(event, env), r)
  {
    ghost var before := provider.calls;
    var valid := ExtractValidEvent(event);
    if valid.Err? {
      CarriedToEnd(provider.outcome, before, HandlerPlan(event, env));
      return Err(valid.error);
    }
    var queue := Required(env, TrackingQueueVar);
    if queue.Err? {
      CarriedToEnd(provider.outcome, before, HandlerPlan(event, env));
      return Err(queue.error);
    }
    var name := TableName(valid.value);
    if name.Err? {
      CarriedToEnd(provider.outcome, before, HandlerPlan(event, env));
      return Err(name.error);
    }
    if Excluded(name.value, ExceptionTables(env)) {
      CarriedToEnd(provider.outcome, before, HandlerPlan(event, env));
      return Pass;
    }
    r := Call(provider, Sqs(SendMessage(queue.value, Message(valid.value))));
    CarriedSingle(provider.outcome, before, Sqs(SendMessage(queue.value, Message(valid.value))));
  }
}
