/**
 * lambda/rds-ddl-init: fed from the queue with a new cluster's CreateDBCluster event, it runs the
 * DDL file of the DDL source bucket on that cluster, provided the bucket's name mentions the
 * cluster, through the Data API and with the secret whose `dbClusterIdentifier` names the cluster.
 */
module RdsDdlInit {
  import opened Errors
  import opened Json
  import opened Text
  import opened Validation
  import opened Aws
  import opened SqsEvent
  import opened SecretSearch
  import opened Ddl

  const DbNameVar := "DB_NAME"
  const BucketVar := "DDL_SOURCE_BUCKET"

  /** The database the statements run in when neither the settings nor the event name one. */
  const DefaultDatabase := "information_schema"

  /** `pat` occurs in `s` at `i` when case is ignored. */
  predicate OccursIgnoringCase(s: string, pat: string, i: nat)
    requires i + |pat| <= |s|
  {
    forall j | 0 <= j < |pat| :: LowerChar(s[i + j]) == LowerChar(pat[j])
  }

  lemma LowerOccursAt(s: string, pat: string, i: nat)
    requires i + |pat| <= |s|
    ensures OccursAt(Lower(s), Lower(pat), i) <==> OccursIgnoringCase(s, pat, i)
  {
    if OccursIgnoringCase(s, pat, i) {
      assert Lower(s)[i..i + |pat|] == Lower(pat) by {
        forall j | 0 <= j < |pat| ensures Lower(s)[i..i + |pat|][j] == Lower(pat)[j] {
          assert Lower(s)[i..i + |pat|][j] == Lower(s)[i + j];
        }
      }
    }
    if OccursAt(Lower(s), Lower(pat), i) {
      forall j | 0 <= j < |pat| ensures LowerChar(s[i + j]) == LowerChar(pat[j]) {
        assert Lower(s)[i..i + |pat|][j] == Lower(s)[i + j];
      }
    }
  }

  /**
   * `cluster_id.lower() in source_s3_bucket.lower()`: whether the bucket's name contains the
   * cluster id, case ignored. An id that is not text has no `lower`.
   */
  function BucketNamesCluster(cid: Value, bucket: string): (r: Result<bool>)
    ensures r.Ok? <==> cid.Str?
    ensures r.Ok? ==> (r.value <==> exists i: nat | i + |cid.s| <= |bucket| :: OccursIgnoringCase(bucket, cid.s, i))
    ensures !cid.Str? ==> r == Err(AttributeError)
  {
    match cid
    case Str(id) =>
      var named := Contains(Lower(bucket), Lower(id));
      assert named <==> exists i: nat | i + |id| <= |bucket| :: OccursIgnoringCase(bucket, id, i) by {
        forall i: nat | i + |id| <= |bucket| ensures OccursAt(Lower(bucket), Lower(id), i) <==> OccursIgnoringCase(bucket, id, i) {
          LowerOccursAt(bucket, id, i);
        }
      }
      Ok(named)
    case _ => Err(AttributeError)
  }

  /**
   * The database the statements run in: a non-empty DB_NAME setting wins, then a truthy
   * `databaseName` of the event, then `information_schema`.
   */
  function DatabaseName(env: Env, body: Value): (r: Value)
    requires body.Obj?
    ensures Truthy(r)
    ensures DbNameVar in env && env[DbNameVar] != "" ==> r == Str(env[DbNameVar])
    ensures (DbNameVar !in env || env[DbNameVar] == "") && Truthy(Field(body, "databaseName")) ==> r == body.fields["databaseName"]
    ensures (DbNameVar !in env || env[DbNameVar] == "") && !Truthy(Field(body, "databaseName")) ==> r == Str(DefaultDatabase)
  {
    var fromBody := if Truthy(Field(body, "databaseName")) then Field(body, "databaseName") else Str(DefaultDatabase);
    if DbNameVar in env && env[DbNameVar] != "" then Str(env[DbNameVar]) else fromBody
  }

  /** What follows the secret search: no secret for the cluster raises; otherwise the file is read and run. */
  function AfterFetch(env: Env, bucket: string, stored: Value, secret: Value, body: Value): Plan
    requires body.Obj? && "dBClusterArn" in body.fields
  {
    if !Truthy(secret) then Raise(Failure)
    else ReadPlan(bucket, DdlFileName(env), stored, Target(body.fields["dBClusterArn"], secret, DatabaseName(env, body)))
  }

  /**
   * The handler after its prologue, on the message body: the cluster id, the bucket setting, the
   * bucket-name test (a bucket that does not mention the cluster ends the handler quietly), the
   * cluster ARN, the secret search, and the DDL run. `store` is Secrets Manager, `stored` the
   * `get_object` answer.
   */
  function AfterBody(env: Env, body: Value, store: SecretStore, decode: string -> Option<Value>, stored: Value): Plan {
    match CheckMissingField(body, "dBClusterIdentifier")
    case Err(e) => Raise(e)
    case Ok(_) =>
      var cid := body.fields["dBClusterIdentifier"];
      match Required(env, BucketVar)
      case Err(e) => Raise(e)
      case Ok(bucket) =>
        match BucketNamesCluster(cid, bucket)
        case Err(e) => Raise(e)
        case Ok(named) =>
          if !named then Done
          else
            match CheckMissingField(body, "dBClusterArn")
            case Err(e) => Raise(e)
            case Ok(_) => Then(FetchPlan(store, decode, cid), AfterFetch(env, bucket, stored, Fetched(store, decode, cid), body))
  }

  function AfterReceive(env: Env, body: Result<Value>, store: SecretStore, decode: string -> Option<Value>, stored: Value): Plan {
    match body
    case Err(e) => Raise(e)
    case Ok(b) => AfterBody(env, b, store, decode, stored)
  }

  /** What `lambda_handler` does when every call goes through; `decode` is `json.loads`. */
  function HandlerPlan(env: Env, event: Value, decode: string -> Option<Value>, store: SecretStore, stored: Value): Plan {
    Then(ReceivePlan(env, event), AfterReceive(env, MessageBody(event, decode), store, decode, stored))
  }

  /**
   * Which calls the handler makes on a body: none but Secrets Manager calls before the read of
   * the DDL file from the DDL source bucket, and after it only statements on the event's cluster,
   * with a truthy secret that the search found for the cluster and the chosen database; all of
   * this only when the bucket's name mentions the cluster.
   */
  lemma BodyCalls(env: Env, body: Value, store: SecretStore, decode: string -> Option<Value>, stored: Value)
    ensures var p := AfterBody(env, body, store, decode, stored);
      forall c | c in p.calls ::
        && body.Obj? && "dBClusterIdentifier" in body.fields && "dBClusterArn" in body.fields
        && BucketVar in env && BucketNamesCluster(body.fields["dBClusterIdentifier"], env[BucketVar]) == Ok(true)
        && (c.Secrets? ||
            c == S3(GetObject(env[BucketVar], DdlFileName(env))) ||
            (c.ExecuteSql? && Truthy(c.secretArn) &&
             RunsOn(c, Target(body.fields["dBClusterArn"], Fetched(store, decode, body.fields["dBClusterIdentifier"]), DatabaseName(env, body)))))
  {
    var p := AfterBody(env, body, store, decode, stored);
    if p.calls != [] {
      var cid := body.fields["dBClusterIdentifier"];
      var bucket := env[BucketVar];
      var f := FetchPlan(store, decode, cid);
      var q := AfterFetch(env, bucket, stored, Fetched(store, decode, cid), body);
      assert p == Then(f, q);
      FetchCalls(store, decode, cid);
      AfterFetchCalls(env, bucket, stored, Fetched(store, decode, cid), body);
    }
  }

  lemma AfterFetchCalls(env: Env, bucket: string, stored: Value, secret: Value, body: Value)
    requires body.Obj? && "dBClusterArn" in body.fields
    ensures forall c | c in AfterFetch(env, bucket, stored, secret, body).calls ::
      c == S3(GetObject(bucket, DdlFileName(env))) ||
      (c.ExecuteSql? && Truthy(c.secretArn) && RunsOn(c, Target(body.fields["dBClusterArn"], secret, DatabaseName(env, body))))
  {
    var q := AfterFetch(env, bucket, stored, secret, body);
    if q.calls != [] {
      var t := Target(body.fields["dBClusterArn"], secret, DatabaseName(env, body));
      ReadPlanCalls(bucket, DdlFileName(env), stored, t);
      forall c | c in q.calls ensures c == S3(GetObject(bucket, DdlFileName(env))) || (c.ExecuteSql? && Truthy(c.secretArn) && RunsOn(c, t)) {
        if c != q.calls[0] {
          var i :| 0 <= i < |q.calls| && q.calls[i] == c;
          assert q.calls[1..][i - 1] == c;
        }
      }
    }
  }

  /** A bucket whose name does not mention the cluster ends the handler after its prologue, with nothing more called or raised. */
  lemma ForeignBucketEndsQuietly(env: Env, body: Value, store: SecretStore, decode: string -> Option<Value>, stored: Value)
    requires CheckMissingField(body, "dBClusterIdentifier").Ok? && Required(env, BucketVar).Ok?
    requires BucketNamesCluster(body.fields["dBClusterIdentifier"], env[BucketVar]) == Ok(false)
    ensures AfterBody(env, body, store, decode, stored) == Done
  {
  }

  /** The settings and the event fields are checked in the handler's order, before any call past the prologue. */
  lemma BodyChecksFirst(env: Env, body: Value, store: SecretStore, decode: string -> Option<Value>, stored: Value)
    ensures CheckMissingField(body, "dBClusterIdentifier").Err? ==>
      AfterBody(env, body, store, decode, stored) == Raise(CheckMissingField(body, "dBClusterIdentifier").error)
    ensures CheckMissingField(body, "dBClusterIdentifier").Ok? && Required(env, BucketVar).Err? ==>
      AfterBody(env, body, store, decode, stored) == Raise(MissingEnvironmentVariable(BucketVar))
    ensures (&& CheckMissingField(body, "dBClusterIdentifier").Ok? && Required(env, BucketVar).Ok?
             && BucketNamesCluster(body.fields["dBClusterIdentifier"], env[BucketVar]) == Ok(true)
             && CheckMissingField(body, "dBClusterArn").Err?) ==>
      AfterBody(env, body, store, decode, stored) == Raise(CheckMissingField(body, "dBClusterArn").error)
  {
  }

  /** When the search finds no secret for the cluster, the handler raises without reading the file. */
  lemma NoSecretNoRead(env: Env, body: Value, store: SecretStore, decode: string -> Option<Value>, stored: Value)
    requires CheckMissingField(body, "dBClusterIdentifier").Ok? && Required(env, BucketVar).Ok?
    requires BucketNamesCluster(body.fields["dBClusterIdentifier"], env[BucketVar]) == Ok(true)
    requires CheckMissingField(body, "dBClusterArn").Ok?
    requires FetchPlan(store, decode, body.fields["dBClusterIdentifier"]).fault.None?
    requires !Truthy(Fetched(store, decode, body.fields["dBClusterIdentifier"]))
    ensures var p := AfterBody(env, body, store, decode, stored);
      p.fault == Some(Failure) && p.calls == FetchPlan(store, decode, body.fields["dBClusterIdentifier"]).calls
  {
    var f := FetchPlan(store, decode, body.fields["dBClusterIdentifier"]);
    assert f.calls + [] == f.calls;
  }

  /** The handler after the prologue, carried out on the message body. */
  method HandleBody(provider: Provider, env: Env, body: Value, store: SecretStore, decode: string -> Option<Value>, stored: Value)
    returns (r: Outcome)
    modifies provider
    ensures Carried(provider.outcome, old(provider.calls), provider.calls, AfterBody(env, body, store, decode, stored), r)
  {
    ghost var before := provider.calls;
    ghost var p := AfterBody(env, body, store, decode, stored);
    var hasId := CheckMissingField(body, "dBClusterIdentifier");
    if hasId.Err? {
      CarriedToEnd(provider.outcome, before, p);
      return Err(hasId.error);
    }
    var cid := body.fields["dBClusterIdentifier"];
    var bucket := Required(env, BucketVar);
    if bucket.Err? {
      CarriedToEnd(provider.outcome, before, p);
      return Err(bucket.error);
    }
    var named := BucketNamesCluster(cid, bucket.value);
    if named.Err? || !named.value {
      CarriedToEnd(provider.outcome, before, p);
      assert before + [] == before;
      return if named.Err? then Err(named.error) else Pass;
    }
    var hasArn := CheckMissingField(body, "dBClusterArn");
    if hasArn.Err? {
      CarriedToEnd(provider.outcome, before, p);
      return Err(hasArn.error);
    }
    ghost var q := AfterFetch(env, bucket.value, stored, Fetched(store, decode, cid), body);
    var found, secret := FetchSecret(provider, store, decode, cid);
    if found.Err? {
      CarriedStopped(provider.outcome, before, provider.calls, FetchPlan(store, decode, cid), found, q);
      return found;
    }
    ghost var mid := provider.calls;
    if !Truthy(secret) {
      CarriedToEnd(provider.outcome, mid, q);
      assert mid + [] == mid;
      r := Err(Failure);
    } else {
      r := ReadAndRun(provider, bucket.value, DdlFileName(env), stored, Target(body.fields["dBClusterArn"], secret, DatabaseName(env, body)));
    }
    CarriedThen(provider.outcome, before, mid, provider.calls, FetchPlan(store, decode, cid), found, q, r);
  }

  /** `lambda_handler`: the queue prologue, then the body's part. */
  method Handle(provider: Provider, env: Env, event: Value, decode: string -> Option<Value>, store: SecretStore, stored: Value)
    returns (r: Outcome)
    modifies provider
    ensures Carried(provider.outcome, old(provider.calls), provider.calls, HandlerPlan(env, event, decode, store, stored), r)
  {
    ghost var before := provider.calls;
    var body := Receive(provider, env, event, decode);
    ghost var mid := provider.calls;
    if body.Err? {
      ReceivedNothing(provider.outcome, before, mid, env, event, decode, AfterReceive(env, MessageBody(event, decode), store, decode, stored));
      return Err(body.error);
    }
    r := HandleBody(provider, env, body.value, store, decode, stored);
    ReceivedThen(provider.outcome, before, mid, provider.calls, env, event, decode,
      AfterReceive(env, MessageBody(event, decode), store, decode, stored), r);
  }
}
