/**
 * The AWS side as the handlers see it: every call a handler makes is appended to the
 * provider's call log, and the provider answers call number i with `outcome(i)`.
 * What a successful read returns (tags, table items, secrets, ...) is given to each
 * handler as a parameter; the provider only decides whether each call is accepted.
 */
module Aws {
  import opened Errors
  import opened Json
  import opened TrackerRecords

  /** How the service answered: an HTTP status in ResponseMetadata (0: none), or a rejection with its ClientError code. */
  datatype Reply = Response(status: int) | Rejected(code: string)

  const Accepted: Reply := Response(200)

  /** A resource tag as the tagging APIs return it. */
  datatype Tag = Tag(key: string, value: string)

  /** The target of a Glue crawler. */
  datatype CrawlerTarget =
    | CatalogTarget(database: string, tables: seq<string>)
    | JdbcTarget(connectionName: string, path: string)

  /** The fixed part of a Glue job definition: its command, workers, timeout and concurrency. */
  datatype JobShape = JobShape(
    command: string, pythonVersion: string, maxRetries: int, timeout: int, workerType: string,
    workers: int, glueVersion: string, executionClass: string, maxConcurrentRuns: int)

  /** The SQS calls. */
  datatype SqsCall =
    | SendMessage(queueUrl: string, body: Value)
    | DeleteMessage(queueUrl: string, receiptHandle: Value)

  /** The S3 calls. */
  datatype S3Call =
    | GetBucketTagging(bucket: Value)
    | GetObject(sourceBucket: string, objectKey: string)

  /** The DynamoDB calls: the tracker table, the report tables, and table tags. */
  datatype DynamoCall =
    | ExecuteStatement(statement: string)
    | PutTrackerItem(table: string, record: TrackerRecord)
    | UpdateCatalogEntry(table: string, id: string, catalogTable: Value, catalogDb: Value)
    | UpdateGlueJobCreated(table: string, id: string)
    | PutReportRow(table: string, item: map<string, Value>)
    | ListTagsOfResource(arn: Value)

  /** The Glue calls. */
  datatype GlueCall =
    | CreateCatalogTable(catalogId: string, catalogDatabase: string, tableName: string, location: string)
    | CreateCrawler(name: string, role: string, database: string, target: CrawlerTarget)
    | CreateJob(name: string, scriptLocation: string, role: string, arguments: map<string, Value>, shape: JobShape)
    | CreateWorkflow(name: string)
    | CreateTrigger(name: string, workflow: string, jobName: string, schedule: string, startOnCreation: bool)
    | GetConnection(catalogId: string, connection: Value)
    | CreateConnection(account: Value, name: string, jdbcUrl: string, secretId: Value, enforceSsl: string,
                       availabilityZone: Value, subnetId: Value, securityGroups: seq<string>)
    | GetTable(account: Value, tableDatabase: Value, table: Value)
    | UpdateTable(account: Value, tableDatabase: Value, input: Value, versionId: Value)

  /** The RDS calls. */
  datatype RdsCall =
    | DescribeDbClusters(clusterId: string)
    | ListTagsForResource(arn: Value)
    | DescribeDbSubnetGroups(subnetGroup: Value)

  /** The Secrets Manager calls. */
  datatype SecretsCall =
    | ListSecrets
    | GetSecretValue(secretId: Value)

  /** Every AWS call the modelled handlers make, by service, with the arguments the properties talk about. */
  datatype Request =
    | Sqs(sqs: SqsCall)
    | S3(s3: S3Call)
    | Dynamo(dynamo: DynamoCall)
    | GetCallerIdentity
    | Glue(glue: GlueCall)
    | Rds(rds: RdsCall)
    | ExecuteSql(resourceArn: Value, secretArn: Value, sqlDatabase: Value, sql: string)
    | Secrets(secrets: SecretsCall)

  class Provider {
    /** Every call made so far, in order. */
    var calls: seq<Request>
    /** The answer the service gives to the i-th call. */
    const outcome: nat -> Reply

    constructor (outcome: nat -> Reply)
      ensures calls == [] && this.outcome == outcome
    {
      calls := [];
      this.outcome := outcome;
    }

    /** Makes one call: it is logged, and answered by the oracle. */
    method Invoke(req: Request) returns (reply: Reply)
      modifies this
      ensures calls == old(calls) + [req]
      ensures reply == outcome(|old(calls)|)
    {
      reply := outcome(|calls|);
      calls := calls + [req];
    }
  }

  /**
   * The response check most calls share: `_check_missing_field(resp, "ResponseMetadata")` then
   * `_validate_field(meta, "HTTPStatusCode", 200)`.
   */
  function CheckResponse(reply: Reply): (r: Outcome)
    ensures r.Ok? <==> reply == Accepted
    ensures reply == Response(0) ==> r == Err(MalformedEvent)
    ensures reply.Response? && reply.status != 0 && reply.status != 200 ==> r == Err(ValueError)
    ensures reply.Rejected? ==> r == Err(ClientError(reply.code))
  {
    match reply
    case Rejected(c) => Err(ClientError(c))
    case Response(s) => if s == 0 then Err(MalformedEvent) else if s != 200 then Err(ValueError) else Pass
  }

  /**
   * `_send_message_to_sqs`: a missing status is MalformedEvent,
   * any status but 200 raises Exception.
   */
  function CheckSent(reply: Reply): (r: Outcome)
    ensures r.Ok? <==> reply == Accepted
    ensures reply == Response(0) ==> r == Err(MalformedEvent)
    ensures reply.Response? && reply.status != 0 && reply.status != 200 ==> r == Err(Failure)
  {
    match reply
    case Rejected(c) => Err(ClientError(c))
    case Response(s) => if s == 0 then Err(MalformedEvent) else if s != 200 then Err(Failure) else Pass
  }

  /**
   * `_execute_sql`: `response["ResponseMetadata"]["HTTPStatusCode"] == 200` or `raise Exception`;
   * a reply without a status fails on the subscript.
   */
  function CheckExecuted(reply: Reply): (r: Outcome)
    ensures r.Ok? <==> reply == Accepted
    ensures reply == Response(0) ==> r == Err(KeyError("HTTPStatusCode"))
    ensures reply.Response? && reply.status != 0 && reply.status != 200 ==> r == Err(Failure)
    ensures reply.Rejected? ==> r == Err(ClientError(reply.code))
  {
    match reply
    case Rejected(c) => Err(ClientError(c))
    case Response(s) => if s == 0 then Err(KeyError("HTTPStatusCode")) else if s != 200 then Err(Failure) else Pass
  }

  /**
   * The deletion check: `.get("ResponseMetadata", {}).get("HTTPStatusCode") == 200` or
   * `raise Exception`, so a missing status fails like any other.
   */
  function CheckStatus(reply: Reply): (r: Outcome)
    ensures r.Ok? <==> reply == Accepted
    ensures reply.Response? && reply.status != 200 ==> r == Err(Failure)
  {
    match reply
    case Rejected(c) => Err(ClientError(c))
    case Response(s) => if s != 200 then Err(Failure) else Pass
  }

  /** A call whose status is not inspected (`sts.get_caller_identity()`): only a ClientError fails it. */
  function CheckAnswered(reply: Reply): (r: Outcome)
    ensures r.Ok? <==> reply.Response?
  {
    match reply
    case Rejected(c) => Err(ClientError(c))
    case Response(_) => Pass
  }

  /** `_get_bucket_tags`: NoSuchTagSet means "no tags"; any other ClientError raises Exception. */
  function CheckTagging(reply: Reply): (r: Outcome)
    ensures r.Ok? <==> reply == Accepted || reply == Rejected("NoSuchTagSet")
    ensures reply == Response(0) ==> r == Err(MalformedEvent)
    ensures r.Err? && reply != Response(0) ==> r == Err(Failure)
  {
    match reply
    case Rejected(c) => if c == "NoSuchTagSet" then Pass else Err(Failure)
    case Response(s) => if s == 0 then Err(MalformedEvent) else if s != 200 then Err(Failure) else Pass
  }

  /**
   * A `put_item` under `attribute_not_exists(id)`: the status is not inspected; the
   * ConditionalCheckFailedException is swallowed and any other ClientError raises Exception.
   */
  function CheckConditionalPut(reply: Reply): (r: Outcome)
    ensures r.Ok? <==> reply.Response? || reply == Rejected("ConditionalCheckFailedException")
    ensures r.Err? ==> r == Err(Failure)
  {
    match reply
    case Rejected(c) => if c == "ConditionalCheckFailedException" then Pass else Err(Failure)
    case Response(_) => Pass
  }

  /** The check the handlers apply to the reply of each kind of call. */
  function Check(req: Request, reply: Reply): Outcome {
    match req
    case Sqs(SendMessage(_, _)) => CheckSent(reply)
    case Sqs(DeleteMessage(_, _)) => CheckStatus(reply)
    case S3(GetBucketTagging(_)) => CheckTagging(reply)
    case ExecuteSql(_, _, _, _) => CheckExecuted(reply)
    case Dynamo(PutTrackerItem(_, _)) => CheckConditionalPut(reply)
    case GetCallerIdentity => CheckAnswered(reply)
    case Secrets(GetSecretValue(_)) => CheckAnswered(reply)
    case _ => CheckResponse(reply)
  }

  /** The handler goes on after this reply to this call. */
  predicate Proceeds(req: Request, reply: Reply) {
    Check(req, reply).Ok?
  }

  /** Makes one call and applies the check the handlers use for its kind. */
  method Call(provider: Provider, req: Request) returns (r: Outcome)
    modifies provider
    ensures provider.calls == old(provider.calls) + [req]
    ensures r == Check(req, provider.outcome(|old(provider.calls)|))
  {
    var reply := provider.Invoke(req);
    r := Check(req, reply);
  }

  /**
   * What a handler does when every call it makes goes through: the calls, in order, and the
   * error it raises after them, if any (a missing setting, a malformed field).
   */
  datatype Plan = Plan(calls: seq<Request>, fault: Option<Error>)

  const Done: Plan := Plan([], None)

  function Raise(e: Error): Plan {
    Plan([], Some(e))
  }

  function Calls(cs: seq<Request>): Plan {
    Plan(cs, None)
  }

  /** `p`, then `q` unless `p` raised. */
  function Then(p: Plan, q: Plan): (r: Plan)
    ensures p.fault.Some? ==> r == p
    ensures p.fault.None? ==> r.calls == p.calls + q.calls && r.fault == q.fault
  {
    if p.fault.Some? then p else Plan(p.calls + q.calls, q.fault)
  }

  /** A failed step of a plan (a missing setting, a malformed field) raises its error without a call. */
  function OrRaise<T>(r: Result<T>, p: Plan): Plan {
    if r.Err? then Raise(r.error) else p
  }

  /** Every call in `calls`, numbered from `from`, proceeds. */
  ghost predicate AllProceed(outcome: nat -> Reply, from: nat, calls: seq<Request>) {
    forall i | 0 <= i < |calls| :: Proceeds(calls[i], outcome(from + i))
  }

  /** How many of `calls` are made when they are made in order from call number `from`, stopping after the first that fails. */
  function Made(outcome: nat -> Reply, from: nat, calls: seq<Request>): (k: nat)
    ensures k <= |calls|
    decreases |calls|
  {
    if calls == [] then 0
    else if !Proceeds(calls[0], outcome(from)) then 1
    else 1 + Made(outcome, from + 1, calls[1..])
  }

  /** The result of making `calls` in order: the error of the first that fails, if any. */
  function RunCalls(outcome: nat -> Reply, from: nat, calls: seq<Request>): Outcome
    decreases |calls|
  {
    if calls == [] then Pass
    else if !Proceeds(calls[0], outcome(from)) then Check(calls[0], outcome(from))
    else RunCalls(outcome, from + 1, calls[1..])
  }

  /** The result of carrying out a plan: the first failing call's error, else the plan's own fault. */
  function Run(outcome: nat -> Reply, from: nat, p: Plan): Outcome {
    var r := RunCalls(outcome, from, p.calls);
    if r.Err? then r else if p.fault.Some? then Err(p.fault.value) else Pass
  }

  /**
   * A handler carried out `p`: starting from the log `before`, it made the plan's calls up to
   * and including the first that failed (all of them if none did), and its result is `Run`.
   */
  ghost predicate Carried(outcome: nat -> Reply, before: seq<Request>, after: seq<Request>, p: Plan, r: Outcome) {
    after == before + p.calls[..Made(outcome, |before|, p.calls)] && r == Run(outcome, |before|, p)
  }

  /** When every call proceeds, all of them are made and the result is the plan's own fault. */
  lemma {:induction false} AllProceedRunsAll(outcome: nat -> Reply, from: nat, calls: seq<Request>)
    ensures AllProceed(outcome, from, calls) <==> RunCalls(outcome, from, calls).Ok?
    ensures AllProceed(outcome, from, calls) ==> Made(outcome, from, calls) == |calls|
    decreases |calls|
  {
    if calls != [] {
      AllProceedRunsAll(outcome, from + 1, calls[1..]);
      if Proceeds(calls[0], outcome(from)) {
        if AllProceed(outcome, from + 1, calls[1..]) {
          forall i | 0 <= i < |calls| ensures Proceeds(calls[i], outcome(from + i)) {
            if i > 0 { assert calls[i] == calls[1..][i - 1]; }
          }
        }
        if AllProceed(outcome, from, calls) {
          forall i | 0 <= i < |calls[1..]| ensures Proceeds(calls[1..][i], outcome(from + 1 + i)) {
            assert calls[1..][i] == calls[i + 1];
          }
        }
      }
    }
  }

  /** Once a call fails, nothing after it is made, and its error is the result. */
  lemma {:induction false} StopsAtFailure(outcome: nat -> Reply, from: nat, calls: seq<Request>, j: nat)
    requires j < |calls| && AllProceed(outcome, from, calls[..j])
    requires !Proceeds(calls[j], outcome(from + j))
    ensures Made(outcome, from, calls) == j + 1
    ensures RunCalls(outcome, from, calls) == Check(calls[j], outcome(from + j))
    decreases j
  {
    if j > 0 {
      assert Proceeds(calls[..j][0], outcome(from));
      var tail := calls[1..][..j - 1];
      forall i | 0 <= i < |tail| ensures Proceeds(tail[i], outcome(from + 1 + i)) {
        assert tail[i] == calls[..j][i + 1];
      }
      StopsAtFailure(outcome, from + 1, calls[1..], j - 1);
    }
  }

  /** A log that ends with the first failing call of the plan carried it out. */
  lemma CarriedToFailure(outcome: nat -> Reply, before: seq<Request>, done: seq<Request>, c: Request, p: Plan)
    requires |done| < |p.calls| && p.calls[..|done| + 1] == done + [c]
    requires AllProceed(outcome, |before|, done)
    requires !Proceeds(c, outcome(|before| + |done|))
    ensures Carried(outcome, before, before + done + [c], p, Check(c, outcome(|before| + |done|)))
  {
    assert p.calls[..|done|] == done;
    assert p.calls[|done|] == c;
    StopsAtFailure(outcome, |before|, p.calls, |done|);
    assert p.calls[..|done| + 1] == done + [c];
  }

  /** A log that made every call of the plan carried it out. */
  lemma CarriedToEnd(outcome: nat -> Reply, before: seq<Request>, p: Plan)
    requires AllProceed(outcome, |before|, p.calls)
    ensures Carried(outcome, before, before + p.calls, p, if p.fault.Some? then Err(p.fault.value) else Pass)
  {
    AllProceedRunsAll(outcome, |before|, p.calls);
    assert p.calls[..|p.calls|] == p.calls;
  }

  /** The calls made so far all proceeded, and extending them by one that proceeds keeps that. */
  lemma AllProceedSnoc(outcome: nat -> Reply, from: nat, done: seq<Request>, c: Request)
    requires AllProceed(outcome, from, done) && Proceeds(c, outcome(from + |done|))
    ensures AllProceed(outcome, from, done + [c])
  {
    forall i | 0 <= i < |done + [c]| ensures Proceeds((done + [c])[i], outcome(from + i)) {
      if i < |done| { assert (done + [c])[i] == done[i]; }
    }
  }

  /** Calls that all proceeded are all made, and what follows them runs from where they ended. */
  lemma {:induction false} ProceededPrefix(outcome: nat -> Reply, from: nat, done: seq<Request>, rest: seq<Request>)
    requires AllProceed(outcome, from, done)
    ensures Made(outcome, from, done + rest) == |done| + Made(outcome, from + |done|, rest)
    ensures RunCalls(outcome, from, done + rest) == RunCalls(outcome, from + |done|, rest)
    decreases |done|
  {
    if done != [] {
      assert (done + rest)[0] == done[0];
      assert (done + rest)[1..] == done[1..] + rest;
      assert Proceeds(done[0], outcome(from));
      forall i | 0 <= i < |done[1..]| ensures Proceeds(done[1..][i], outcome(from + 1 + i)) {
        assert done[1..][i] == done[i + 1];
      }
      ProceededPrefix(outcome, from + 1, done[1..], rest);
      assert Made(outcome, from, done + rest) == 1 + Made(outcome, from + 1, done[1..] + rest);
      assert RunCalls(outcome, from, done + rest) == RunCalls(outcome, from + 1, done[1..] + rest);
    } else {
      assert done + rest == rest;
    }
  }

  /** Making `done`, all of which proceeded, and then carrying out `q` carries out `done` followed by `q`. */
  lemma CarriedAfter(outcome: nat -> Reply, before: seq<Request>, done: seq<Request>, after: seq<Request>, q: Plan, r: Outcome)
    requires AllProceed(outcome, |before|, done)
    requires Carried(outcome, before + done, after, q, r)
    ensures Carried(outcome, before, after, Plan(done + q.calls, q.fault), r)
  {
    ProceededPrefix(outcome, |before|, done, q.calls);
    var m := Made(outcome, |before| + |done|, q.calls);
    assert (done + q.calls)[..|done| + m] == done + q.calls[..m];
  }

  /** Calls that stopped at a failure are unaffected by anything planned after them. */
  lemma {:induction false} FailedPrefix(outcome: nat -> Reply, from: nat, calls: seq<Request>, more: seq<Request>)
    requires RunCalls(outcome, from, calls).Err?
    ensures Made(outcome, from, calls + more) == Made(outcome, from, calls)
    ensures RunCalls(outcome, from, calls + more) == RunCalls(outcome, from, calls)
    decreases |calls|
  {
    assert (calls + more)[0] == calls[0];
    if Proceeds(calls[0], outcome(from)) {
      assert (calls + more)[1..] == calls[1..] + more;
      FailedPrefix(outcome, from + 1, calls[1..], more);
    }
  }

  /** A plan part that failed is a failed run of any plan it begins. */
  lemma CarriedStopped(outcome: nat -> Reply, before: seq<Request>, after: seq<Request>, p: Plan, r: Outcome, q: Plan)
    requires Carried(outcome, before, after, p, r) && r.Err?
    ensures Carried(outcome, before, after, Then(p, q), r)
  {
    if p.fault.None? {
      FailedPrefix(outcome, |before|, p.calls, q.calls);
      var m := Made(outcome, |before|, p.calls);
      assert (p.calls + q.calls)[..m] == p.calls[..m];
    }
  }

  /** A plan part that went through, followed by a carried-out part, carries out both. */
  lemma CarriedThen(outcome: nat -> Reply, before: seq<Request>, mid: seq<Request>, after: seq<Request>, p: Plan, r1: Outcome, q: Plan, r2: Outcome)
    requires Carried(outcome, before, mid, p, r1) && r1.Ok?
    requires Carried(outcome, mid, after, q, r2)
    ensures Carried(outcome, before, after, Then(p, q), r2)
  {
    AllProceedRunsAll(outcome, |before|, p.calls);
    assert p.calls[..|p.calls|] == p.calls;
    CarriedAfter(outcome, before, p.calls, after, q, r2);
  }

  /** A plan part that went through, followed by one that makes no call, carries out both. */
  lemma LastCallsNone(outcome: nat -> Reply, before: seq<Request>, mid: seq<Request>, p: Plan, q: Plan)
    requires Carried(outcome, before, mid, p, Pass)
    requires q.calls == []
    ensures Carried(outcome, before, mid, Then(p, q), if q.fault.Some? then Err(q.fault.value) else Pass)
  {
    CarriedToEnd(outcome, mid, q);
    assert mid + q.calls == mid;
    CarriedThen(outcome, before, mid, mid, p, Pass, q, if q.fault.Some? then Err(q.fault.value) else Pass);
  }

  /** Carrying out a plan only appends to the log. */
  lemma CarriedExtends(outcome: nat -> Reply, before: seq<Request>, after: seq<Request>, p: Plan, r: Outcome)
    requires Carried(outcome, before, after, p, r)
    ensures |before| <= |after| && after[..|before|] == before
  {
  }

  /** A plan carried out without an error made every one of its calls, and all of them proceeded. */
  lemma CarriedPassed(outcome: nat -> Reply, before: seq<Request>, after: seq<Request>, p: Plan, r: Outcome)
    requires Carried(outcome, before, after, p, r) && r.Ok?
    ensures after == before + p.calls && AllProceed(outcome, |before|, p.calls)
  {
    AllProceedRunsAll(outcome, |before|, p.calls);
    assert p.calls[..|p.calls|] == p.calls;
  }

  /**
   * Three calls in a row carry out the plan made of them: the log ends with the first that
   * fails, or with all three, and the result is that call's check.
   */
  lemma CarriedThree(outcome: nat -> Reply, before: seq<Request>, a: Request, b: Request, c: Request)
    ensures !Proceeds(a, outcome(|before|)) ==>
      Carried(outcome, before, before + [a], Calls([a, b, c]), Check(a, outcome(|before|)))
    ensures Proceeds(a, outcome(|before|)) && !Proceeds(b, outcome(|before| + 1)) ==>
      Carried(outcome, before, before + [a] + [b], Calls([a, b, c]), Check(b, outcome(|before| + 1)))
    ensures Proceeds(a, outcome(|before|)) && Proceeds(b, outcome(|before| + 1)) ==>
      Carried(outcome, before, before + [a] + [b] + [c], Calls([a, b, c]), Check(c, outcome(|before| + 2)))
  {
    var n := |before|;
    var rest := Then(Calls([b]), Calls([c]));
    assert Then(Calls([a]), rest) == Calls([a, b, c]);
    CarriedSingle(outcome, before, a);
    if !Proceeds(a, outcome(n)) {
      CarriedStopped(outcome, before, before + [a], Calls([a]), Check(a, outcome(n)), rest);
    } else {
      assert Check(a, outcome(n)) == Pass;
      ThenTwo(outcome, before + [a], b, c);
      if !Proceeds(b, outcome(n + 1)) {
        CarriedThen(outcome, before, before + [a], before + [a] + [b], Calls([a]), Pass, rest, Check(b, outcome(n + 1)));
      } else {
        CarriedThen(outcome, before, before + [a], before + [a] + [b] + [c], Calls([a]), Pass, rest, Check(c, outcome(n + 2)));
      }
    }
  }

  /**
   * Four calls in a row carry out the plan made of them: the log ends with the first that
   * fails, or with all four, and the result is that call's check.
   */
  lemma CarriedFour(outcome: nat -> Reply, before: seq<Request>, a: Request, b: Request, c: Request, d: Request)
    ensures !Proceeds(a, outcome(|before|)) ==>
      Carried(outcome, before, before + [a], Calls([a, b, c, d]), Check(a, outcome(|before|)))
    ensures Proceeds(a, outcome(|before|)) && !Proceeds(b, outcome(|before| + 1)) ==>
      Carried(outcome, before, before + [a] + [b], Calls([a, b, c, d]), Check(b, outcome(|before| + 1)))
    ensures Proceeds(a, outcome(|before|)) && Proceeds(b, outcome(|before| + 1)) && !Proceeds(c, outcome(|before| + 2)) ==>
      Carried(outcome, before, before + [a] + [b] + [c], Calls([a, b, c, d]), Check(c, outcome(|before| + 2)))
    ensures Proceeds(a, outcome(|before|)) && Proceeds(b, outcome(|before| + 1)) && Proceeds(c, outcome(|before| + 2)) ==>
      Carried(outcome, before, before + [a] + [b] + [c] + [d], Calls([a, b, c, d]), Check(d, outcome(|before| + 3)))
  {
    var n := |before|;
    var rest := Calls([b, c, d]);
    assert Then(Calls([a]), rest) == Calls([a, b, c, d]);
    CarriedSingle(outcome, before, a);
    if !Proceeds(a, outcome(n)) {
      CarriedStopped(outcome, before, before + [a], Calls([a]), Check(a, outcome(n)), rest);
    } else {
      assert Check(a, outcome(n)) == Pass;
      var mid := before + [a];
      CarriedThree(outcome, mid, b, c, d);
      if !Proceeds(b, outcome(n + 1)) {
        CarriedThen(outcome, before, mid, mid + [b], Calls([a]), Pass, rest, Check(b, outcome(n + 1)));
      } else if !Proceeds(c, outcome(n + 2)) {
        CarriedThen(outcome, before, mid, mid + [b] + [c], Calls([a]), Pass, rest, Check(c, outcome(n + 2)));
      } else {
        CarriedThen(outcome, before, mid, mid + [b] + [c] + [d], Calls([a]), Pass, rest, Check(d, outcome(n + 3)));
      }
    }
  }

  /** Two calls in a row carry out the plan of the first followed by the second. */
  lemma ThenTwo(outcome: nat -> Reply, before: seq<Request>, b: Request, c: Request)
    ensures !Proceeds(b, outcome(|before|)) ==>
      Carried(outcome, before, before + [b], Then(Calls([b]), Calls([c])), Check(b, outcome(|before|)))
    ensures Proceeds(b, outcome(|before|)) ==>
      Carried(outcome, before, before + [b] + [c], Then(Calls([b]), Calls([c])), Check(c, outcome(|before| + 1)))
  {
    CarriedSingle(outcome, before, b);
    if !Proceeds(b, outcome(|before|)) {
      CarriedStopped(outcome, before, before + [b], Calls([b]), Check(b, outcome(|before|)), Calls([c]));
    } else {
      assert Check(b, outcome(|before|)) == Pass;
      CarriedSingle(outcome, before + [b], c);
      CarriedThen(outcome, before, before + [b], before + [b] + [c], Calls([b]), Pass, Calls([c]), Check(c, outcome(|before| + 1)));
    }
  }

  /** A call that failed ends the plan it leads. */
  lemma LeadFailed(outcome: nat -> Reply, before: seq<Request>, c: Request, q: Plan)
    requires !Proceeds(c, outcome(|before|))
    ensures Carried(outcome, before, before + [c], Then(Calls([c]), q), Check(c, outcome(|before|)))
  {
    CarriedSingle(outcome, before, c);
    CarriedStopped(outcome, before, before + [c], Calls([c]), Check(c, outcome(|before|)), q);
  }

  /** A call that went through, followed by a carried-out `q`, carries out the plan it leads. */
  lemma LeadProceeded(outcome: nat -> Reply, before: seq<Request>, after: seq<Request>, c: Request, q: Plan, r: Outcome)
    requires Proceeds(c, outcome(|before|))
    requires Carried(outcome, before + [c], after, q, r)
    ensures Carried(outcome, before, after, Then(Calls([c]), q), r)
  {
    CarriedSingle(outcome, before, c);
    CarriedThen(outcome, before, before + [c], after, Calls([c]), Pass, q, r);
  }

  /** A single call carries out the plan made of it. */
  lemma CarriedSingle(outcome: nat -> Reply, before: seq<Request>, c: Request)
    ensures Carried(outcome, before, before + [c], Calls([c]), Check(c, outcome(|before|)))
  {
    assert [c][1..] == [];
    assert [c][..1] == [c];
    var r := Check(c, outcome(|before|));
    if r.Ok? {
      assert Proceeds(c, outcome(|before|));
      assert RunCalls(outcome, |before|, [c]) == RunCalls(outcome, |before| + 1, []) == Pass;
      assert r == Pass;
    }
  }

  /** The plans `ps`, one after another, stopping at the first that raises. */
  function Sequence(ps: seq<Plan>): Plan
    decreases |ps|
  {
    if ps == [] then Done else Then(Sequence(ps[..|ps| - 1]), ps[|ps| - 1])
  }

  /** A sequence raises nothing exactly when none of its plans does. */
  lemma {:induction false} SequenceFaultless(ps: seq<Plan>)
    ensures Sequence(ps).fault.None? <==> forall i | 0 <= i < |ps| :: ps[i].fault.None?
    decreases |ps|
  {
    if ps != [] {
      var prefix := ps[..|ps| - 1];
      SequenceFaultless(prefix);
      assert forall i | 0 <= i < |prefix| :: prefix[i] == ps[i];
    }
  }

  /** Every call of a sequence is a call of one of its plans. */
  lemma {:induction false} SequenceCalls(ps: seq<Plan>)
    ensures forall c | c in Sequence(ps).calls :: exists i | 0 <= i < |ps| :: c in ps[i].calls
    decreases |ps|
  {
    if ps != [] {
      var init := ps[..|ps| - 1];
      SequenceCalls(init);
      forall c | c in Sequence(ps).calls ensures exists i | 0 <= i < |ps| :: c in ps[i].calls {
        if c in Sequence(init).calls {
          var i :| 0 <= i < |init| && c in init[i].calls;
          assert ps[i] == init[i];
        } else {
          assert c in ps[|ps| - 1].calls;
        }
      }
    }
  }

  /** Nothing of a sequence has been carried out before its first plan. */
  lemma SequenceStart(outcome: nat -> Reply, start: seq<Request>, ps: seq<Plan>)
    ensures Carried(outcome, start, start, Sequence(ps[..0]), Pass)
  {
    assert ps[..0] == [];
    CarriedToEnd(outcome, start, Done);
    assert start + [] == start;
  }

  /**
   * The next plan of a sequence whose earlier plans went through, carried out: the sequence is
   * carried out one plan further, and if that plan failed, the whole sequence ends there.
   */
  lemma SequenceStep(outcome: nat -> Reply, start: seq<Request>, mid: seq<Request>, after: seq<Request>,
                     ps: seq<Plan>, i: nat, r: Outcome)
    requires i < |ps|
    requires Carried(outcome, start, mid, Sequence(ps[..i]), Pass)
    requires Carried(outcome, mid, after, ps[i], r)
    ensures Carried(outcome, start, after, Sequence(ps[..i + 1]), r)
    ensures r.Err? ==> Carried(outcome, start, after, Sequence(ps), r)
  {
    SequencePrefix(ps, i);
    CarriedThen(outcome, start, mid, after, Sequence(ps[..i]), Pass, ps[i], r);
    if r.Err? {
      SequenceStopped(outcome, start, after, ps, i + 1, r);
    }
  }

  /** The sequence of the first i + 1 plans is that of the first i, then plan i. */
  lemma SequencePrefix(ps: seq<Plan>, i: nat)
    requires i < |ps|
    ensures Sequence(ps[..i + 1]) == Then(Sequence(ps[..i]), ps[i])
  {
    assert ps[..i + 1][..i] == ps[..i];
  }

  /** A sequence carried out without error, then one more plan carried out, carries out the longer sequence. */
  lemma SequenceSnoc(outcome: nat -> Reply, start: seq<Request>, mid: seq<Request>, after: seq<Request>,
                     done: seq<Plan>, next: Plan, r: Outcome)
    requires Carried(outcome, start, mid, Sequence(done), Pass)
    requires Carried(outcome, mid, after, next, r)
    ensures Carried(outcome, start, after, Sequence(done + [next]), r)
  {
    assert (done + [next])[..|done|] == done;
    CarriedThen(outcome, start, mid, after, Sequence(done), Pass, next, r);
  }

  /** A sequence whose first `k` plans ended in a failure ends there, whatever its later plans are. */
  lemma {:induction false} SequenceStopped(outcome: nat -> Reply, start: seq<Request>, after: seq<Request>,
                                           ps: seq<Plan>, k: nat, r: Outcome)
    requires k <= |ps| && r.Err?
    requires Carried(outcome, start, after, Sequence(ps[..k]), r)
    ensures Carried(outcome, start, after, Sequence(ps), r)
    decreases |ps| - k
  {
    if k == |ps| {
      assert ps[..k] == ps;
    } else {
      assert ps[..k + 1][..k] == ps[..k];
      CarriedStopped(outcome, start, after, Sequence(ps[..k]), r, ps[k]);
      SequenceStopped(outcome, start, after, ps, k + 1, r);
    }
  }

  /** A sequence carried out to its last plan is the whole sequence carried out. */
  lemma SequenceEnd(outcome: nat -> Reply, start: seq<Request>, after: seq<Request>, ps: seq<Plan>, r: Outcome)
    requires Carried(outcome, start, after, Sequence(ps[..|ps|]), r)
    ensures Carried(outcome, start, after, Sequence(ps), r)
  {
    assert ps[..|ps|] == ps;
  }

  /** The bodies sent to the queue `url` among `calls`, in order: the queue as the handlers append to it. */
  function Messages(calls: seq<Request>, url: string): seq<Value>
    decreases |calls|
  {
    if calls == [] then []
    else
      var last := calls[|calls| - 1];
      Messages(calls[..|calls| - 1], url) + if last.Sqs? && last.sqs.SendMessage? && last.sqs.queueUrl == url then [last.sqs.body] else []
  }

  lemma {:induction false} MessagesAppend(a: seq<Request>, b: seq<Request>, url: string)
    ensures Messages(a + b, url) == Messages(a, url) + Messages(b, url)
    decreases |b|
  {
    if b == [] {
      assert a + b == a;
    } else {
      var b' := b[..|b| - 1];
      assert (a + b)[..|a + b| - 1] == a + b';
      MessagesAppend(a, b', url);
    }
  }

  /** A single call puts its body on the queue it is sent to, and nothing anywhere else. */
  lemma MessagesOfCall(c: Request, url: string)
    ensures Messages([c], url) == if c.Sqs? && c.sqs.SendMessage? && c.sqs.queueUrl == url then [c.sqs.body] else []
  {
    assert [c][..0] == [];
  }
}
