/**
 * lambda/rds-ddl-trigger: a new RDS cluster's `responseElements` go, unchanged, first to the
 * DDL queue and then to the Glue initial queue.
 */
module RdsDdlTrigger {
  import opened Errors
  import opened Json
  import opened Validation
  import opened Aws

  const DdlQueueVar := "RDS_DDL_QUEUE_URL"
  const GlueQueueVar := "RDS_GLUE_QUEUE_URL"

  /** `_extract_valid_event`: the `responseElements` of a CreateDBCluster call reported by aws.rds. */
  function ExtractValidEvent(event: Value): (r: Result<Value>)
    ensures r.Ok? <==> EventMatches(event, "aws.rds", "CreateDBCluster", "responseElements")
    ensures r.Ok? ==> r.value == event.fields["detail"].fields["responseElements"]
  {
    ExtractDetail(event, "aws.rds", "CreateDBCluster", "responseElements")
  }

  /** What `lambda_handler` does when every call goes through. */
  function HandlerPlan(event: Value, env: Env): Plan {
    match ExtractValidEvent(event)
    case Err(e) => Raise(e)
    case Ok(re) =>
      match Required(env, DdlQueueVar)
      case Err(e) => Raise(e)
      case Ok(ddl) =>
        match Required(env, GlueQueueVar)
        case Err(e) => Raise(e)
        case Ok(glue) => Calls([Sqs(SendMessage(ddl, re)), Sqs(SendMessage(glue, re))])
  }

  /**
   * Both queues receive the cluster's `responseElements` themselves, not wrapped in a message,
   * and when both queues are configured nothing else is done.
   */
  lemma BothQueuesGetResponseElements(event: Value, env: Env)
    requires ExtractValidEvent(event).Ok?
    requires Required(env, DdlQueueVar).Ok? && Required(env, GlueQueueVar).Ok?
    requires env[DdlQueueVar] != env[GlueQueueVar]
    ensures var p := HandlerPlan(event, env); var re := ExtractValidEvent(event).value;
      && p.fault.None? && |p.calls| == 2
      && Messages(p.calls, env[DdlQueueVar]) == [re]
      && Messages(p.calls, env[GlueQueueVar]) == [re]
  {
    var p := HandlerPlan(event, env);
    assert p.calls == [p.calls[0]] + [p.calls[1]];
    MessagesAppend([p.calls[0]], [p.calls[1]], env[DdlQueueVar]);
    MessagesAppend([p.calls[0]], [p.calls[1]], env[GlueQueueVar]);
    MessagesOfCall(p.calls[0], env[DdlQueueVar]);
    MessagesOfCall(p.calls[1], env[DdlQueueVar]);
    MessagesOfCall(p.calls[0], env[GlueQueueVar]);
    MessagesOfCall(p.calls[1], env[GlueQueueVar]);
  }

  /** Both settings are required before anything is sent. */
  lemma ConfigurationFirst(event: Value, env: Env)
    requires Required(env, DdlQueueVar).Err? || Required(env, GlueQueueVar).Err?
    ensures HandlerPlan(event, env).calls == []
    ensures ExtractValidEvent(event).Ok? ==>
      HandlerPlan(event, env).fault == Some(MissingEnvironmentVariable(if Required(env, DdlQueueVar).Err? then DdlQueueVar else GlueQueueVar))
  {
  }

  /** A failed send to the DDL queue stops the handler before the Glue queue is written. */
  lemma {:induction false} DdlFailureSkipsGlue(outcome: nat -> Reply, before: seq<Request>, after: seq<Request>, event: Value, env: Env, r: Outcome)
    requires Carried(outcome, before, after, HandlerPlan(event, env), r)
    requires HandlerPlan(event, env).calls != []
    requires !Proceeds(HandlerPlan(event, env).calls[0], outcome(|before|))
    ensures after == before + [HandlerPlan(event, env).calls[0]]
    ensures r.Err?
  {
    var p := HandlerPlan(event, env);
    assert Made(outcome, |before|, p.calls) == 1;
    assert p.calls[..1] == [p.calls[0]];
  }

  /** `lambda_handler`. */
  method Handle(provider: Provider, env: Env, event: Value) returns (r: Outcome)
    modifies provider
    ensures Carried(provider.outcome, old(provider.calls), provider.calls, HandlerPlan(event, env), r)
  {
    ghost var before := provider.calls;
    var valid := ExtractValidEvent(event);
    if valid.Err? {
      CarriedToEnd(provider.outcome, before, HandlerPlan(event, env));
      return Err(valid.error);
    }
    var ddl := Required(env, DdlQueueVar);
    if ddl.Err? {
      CarriedToEnd(provider.outcome, before, HandlerPlan(event, env));
      return Err(ddl.error);
    }
    var glue := Required(env, GlueQueueVar);
    if glue.Err? {
      CarriedToEnd(provider.outcome, before, HandlerPlan(event, env));
      return Err(glue.error);
    }
    var first := Sqs(SendMessage(ddl.value, valid.value));
    var second := Sqs(SendMessage(glue.value, valid.value));
    r := Call(provider, first);
    CarriedSingle(provider.outcome, before, first);
    ghost var mid := provider.calls;
    if r.Err? {
      CarriedStopped(provider.outcome, before, mid, Calls([first]), r, Calls([second]));
      return;
    }
    var r2 := Call(provider, second);
    CarriedSingle(provider.outcome, mid, second);
    CarriedThen(provider.outcome, before, mid, provider.calls, Calls([first]), r, Calls([second]), r2);
    r := r2;
  }
}
