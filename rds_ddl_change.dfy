/**
 * lambda/rds-ddl-change: run when the DDL file of a cluster's DDL source bucket is replaced. The
 * cluster is named by the bucket (`ddl-source-<cluster id>`); its ARN comes from
 * `describe_db_clusters`, its secret from the secret search, and every statement of the new file
 * is run in the DB_NAME database.
 */
module RdsDdlChange {
  import opened Errors
  import opened Json
  import opened Text
  import opened Validation
  import opened Aws
  import opened SecretSearch
  import opened Ddl

  const DbNameVar := "DB_NAME"
  const RegionVar := "AWS_REGION"
  const BucketVar := "DDL_SOURCE_BUCKET"

  /** The prefix of a DDL source bucket's name. */
  const BucketPrefix := "ddl-source-"

  /** `source_s3_bucket.replace("ddl-source-", "")`: the cluster id the bucket names. */
  function BucketClusterId(bucket: string): string {
    ReplaceAll(bucket, BucketPrefix, "")
  }

  /** A bucket named `ddl-source-<id>` names the cluster `id`, when the prefix does not occur again in `id`. */
  lemma BucketNamesCluster(id: string)
    requires !Contains(id, BucketPrefix)
    ensures BucketClusterId(BucketPrefix + id) == id
  {
    var bucket := BucketPrefix + id;
    assert bucket[..|BucketPrefix|] == BucketPrefix;
    assert bucket[|BucketPrefix|..] == id;
    ReplaceAbsent(id, BucketPrefix, "");
  }

  /**
   * The cluster ARN the `describe_db_clusters` answer `resp` gives: the first cluster's
   * `DBClusterArn`; "" when the cluster list has no first item (the IndexError is caught).
   * Every other failure is raised.
   */
  function DescribedArn(resp: Value): (r: Result<Value>)
    ensures CheckMissingField(resp, "DBClusters").Err? ==> r == Err(CheckMissingField(resp, "DBClusters").error)
    ensures CheckMissingField(resp, "DBClusters").Ok? && resp.fields["DBClusters"].Arr? ==>
      var first := resp.fields["DBClusters"].items[0];
      && (r.Ok? <==> CheckMissingField(first, "DBClusterArn").Ok?)
      && (r.Ok? ==> r.value == first.fields["DBClusterArn"])
  {
    var _ :- CheckMissingField(resp, "DBClusters");
    match Head(resp.fields["DBClusters"])
    case Err(e) => if e == IndexError then Ok(Str("")) else Err(e)
    case Ok(first) =>
      var _ :- CheckMissingField(first, "DBClusterArn");
      Ok(first.fields["DBClusterArn"])
  }

  /**
   * The fallback that infers the ARN never runs: `_check_missing_field` has already refused an
   * empty cluster list, so the subscript that would raise the caught IndexError never does, and
   * an ARN that is read is truthy.
   */
  lemma {:induction false} InferenceUnreachable(resp: Value)
    ensures DescribedArn(resp).Ok? ==> Truthy(DescribedArn(resp).value)
  {
    if CheckMissingField(resp, "DBClusters").Ok? {
      var clusters := resp.fields["DBClusters"];
      assert Truthy(clusters);
      assert Head(clusters) != Err(IndexError);
    }
  }

  /**
   * The ARN the fallback builds from the region and the `get_caller_identity` answer `identity`:
   * `arn:aws:rds:<region>:<account>:cluster:<cluster id>`, or "" when the answer has no account.
   */
  function InferredArn(region: string, identity: Value, clusterId: string): (r: Result<Value>)
    ensures r.Ok? <==> identity.Obj?
    ensures r.Ok? && Truthy(Field(identity, "Account")) ==>
      r.value == Str("arn:aws:rds:" + region + ":" + Render(identity.fields["Account"]) + ":cluster:" + clusterId)
    ensures r.Ok? && !Truthy(Field(identity, "Account")) ==> r.value == Str("")
  {
    var account :- Get(identity, "Account");
    if Truthy(account) then Ok(Str("arn:aws:rds:" + region + ":" + Render(account) + ":cluster:" + clusterId)) else Ok(Str(""))
  }

  /** What follows the secret search: no secret raises; otherwise the file is read and run. */
  function AfterFetch(env: Env, bucket: string, db: string, arn: Value, secret: Value, stored: Value): Plan {
    if !Truthy(secret) then Raise(Failure)
    else ReadPlan(bucket, DdlFileName(env), stored, Target(arn, secret, Str(db)))
  }

  /** Once the ARN is settled: no ARN raises; otherwise the secret search, then the run. */
  function AfterArn(env: Env, bucket: string, db: string, arn: Value, store: SecretStore, decode: string -> Option<Value>, stored: Value): Plan {
    var cid := Str(BucketClusterId(bucket));
    if !Truthy(arn) then Raise(Failure)
    else Then(FetchPlan(store, decode, cid), AfterFetch(env, bucket, db, arn, Fetched(store, decode, cid), stored))
  }

  /** What follows an accepted `describe_db_clusters`: the ARN it gives, or the inferred one. */
  function AfterDescribe(env: Env, bucket: string, db: string, clusters: Value, identity: Value,
                         store: SecretStore, decode: string -> Option<Value>, stored: Value): Plan {
    match DescribedArn(clusters)
    case Err(e) => Raise(e)
    case Ok(arn) =>
      if Truthy(arn) then AfterArn(env, bucket, db, arn, store, decode, stored)
      else
        match Required(env, RegionVar)
        case Err(e) => Raise(e)
        case Ok(region) =>
          Then(Calls([GetCallerIdentity]),
            match InferredArn(region, identity, BucketClusterId(bucket))
            case Err(e) => Raise(e)
            case Ok(inferred) => AfterArn(env, bucket, db, inferred, store, decode, stored))
  }

  /**
   * What `lambda_handler` does when every call goes through: `clusters`, `identity`, `store`
   * and `stored` are what RDS, STS, Secrets Manager and S3 answer; `decode` is `json.loads`.
   * DB_NAME is required, but its absence is reported under DDL_SOURCE_BUCKET's name.
   */
  function HandlerPlan(env: Env, clusters: Value, identity: Value, store: SecretStore,
                       decode: string -> Option<Value>, stored: Value): Plan {
    match Required(env, BucketVar)
    case Err(e) => Raise(e)
    case Ok(bucket) =>
      match RequiredAs(env, DbNameVar, BucketVar)
      case Err(e) => Raise(e)
      case Ok(db) =>
        Then(Calls([Rds(DescribeDbClusters(BucketClusterId(bucket)))]),
          AfterDescribe(env, bucket, db, clusters, identity, store, decode, stored))
  }

  /** The handler never calls STS. */
  lemma NeverInfers(env: Env, clusters: Value, identity: Value, store: SecretStore, decode: string -> Option<Value>, stored: Value)
    ensures GetCallerIdentity !in HandlerPlan(env, clusters, identity, store, decode, stored).calls
  {
    HandlerCalls(env, clusters, identity, store, decode, stored);
    var p := HandlerPlan(env, clusters, identity, store, decode, stored);
    if p.calls != [] {
      var tail := p.calls[1..];
      assert GetCallerIdentity !in tail;
      assert p.calls == [p.calls[0]] + tail;
    }
  }

  /** Nor does it read AWS_REGION: the handler does the same without it. */
  lemma RegionIgnored(env: Env, clusters: Value, identity: Value, store: SecretStore, decode: string -> Option<Value>, stored: Value)
    ensures HandlerPlan(env, clusters, identity, store, decode, stored) == HandlerPlan(env - {RegionVar}, clusters, identity, store, decode, stored)
  {
    var env' := env - {RegionVar};
    assert Required(env', BucketVar) == Required(env, BucketVar);
    assert RequiredAs(env', DbNameVar, BucketVar) == RequiredAs(env, DbNameVar, BucketVar);
    if Required(env, BucketVar).Ok? && RequiredAs(env, DbNameVar, BucketVar).Ok? {
      var bucket := env[BucketVar];
      var db := env[DbNameVar];
      var describe := Calls([Rds(DescribeDbClusters(BucketClusterId(bucket)))]);
      assert HandlerPlan(env, clusters, identity, store, decode, stored) ==
        Then(describe, AfterDescribe(env, bucket, db, clusters, identity, store, decode, stored));
      assert HandlerPlan(env', clusters, identity, store, decode, stored) ==
        Then(describe, AfterDescribe(env', bucket, db, clusters, identity, store, decode, stored));
      AfterDescribeIgnoresRegion(env, bucket, db, clusters, identity, store, decode, stored);
    }
  }

  lemma AfterDescribeIgnoresRegion(env: Env, bucket: string, db: string, clusters: Value, identity: Value,
                                   store: SecretStore, decode: string -> Option<Value>, stored: Value)
    ensures AfterDescribe(env, bucket, db, clusters, identity, store, decode, stored) ==
            AfterDescribe(env - {RegionVar}, bucket, db, clusters, identity, store, decode, stored)
  {
    InferenceUnreachable(clusters);
    if DescribedArn(clusters).Ok? {
      AfterArnIgnoresRegion(env, bucket, db, DescribedArn(clusters).value, store, decode, stored);
    }
  }

  lemma AfterArnIgnoresRegion(env: Env, bucket: string, db: string, arn: Value, store: SecretStore, decode: string -> Option<Value>, stored: Value)
    ensures AfterArn(env, bucket, db, arn, store, decode, stored) == AfterArn(env - {RegionVar}, bucket, db, arn, store, decode, stored)
  {
    assert DdlFileName(env - {RegionVar}) == DdlFileName(env);
  }

  /**
   * Which calls the handler makes, in order: the cluster description for the cluster the bucket
   * names, then Secrets Manager, then the read of the DDL file, then statements on the described
   * cluster with a truthy secret of the search and the DB_NAME database.
   */
  lemma HandlerCalls(env: Env, clusters: Value, identity: Value, store: SecretStore, decode: string -> Option<Value>, stored: Value)
    ensures var p := HandlerPlan(env, clusters, identity, store, decode, stored);
      p.calls != [] ==>
        && Required(env, BucketVar).Ok? && RequiredAs(env, DbNameVar, BucketVar).Ok?
        && p.calls[0] == Rds(DescribeDbClusters(BucketClusterId(env[BucketVar])))
        && forall c | c in p.calls[1..] ::
          && DescribedArn(clusters).Ok?
          && (|| c.Secrets?
              || c == S3(GetObject(env[BucketVar], DdlFileName(env)))
              || (&& c.ExecuteSql? && Truthy(c.secretArn)
                  && RunsOn(c, Target(DescribedArn(clusters).value, Fetched(store, decode, Str(BucketClusterId(env[BucketVar]))), Str(env[DbNameVar])))))
  {
    InferenceUnreachable(clusters);
    var p := HandlerPlan(env, clusters, identity, store, decode, stored);
    if Required(env, BucketVar).Ok? && RequiredAs(env, DbNameVar, BucketVar).Ok? {
      var bucket := env[BucketVar];
      var rest := AfterDescribe(env, bucket, env[DbNameVar], clusters, identity, store, decode, stored);
      assert p.calls[1..] == rest.calls;
      if DescribedArn(clusters).Ok? {
        var arn := DescribedArn(clusters).value;
        var cid := Str(BucketClusterId(bucket));
        var f := FetchPlan(store, decode, cid);
        var q := AfterFetch(env, bucket, env[DbNameVar], arn, Fetched(store, decode, cid), stored);
        assert rest == Then(f, q);
        FetchCalls(store, decode, cid);
        if q.calls != [] {
          var t := Target(arn, Fetched(store, decode, cid), Str(env[DbNameVar]));
          ReadPlanCalls(bucket, DdlFileName(env), stored, t);
          forall c | c in q.calls ensures c == S3(GetObject(bucket, DdlFileName(env))) || (c.ExecuteSql? && Truthy(c.secretArn) && RunsOn(c, t)) {
            if c != q.calls[0] {
              var i :| 0 <= i < |q.calls| && q.calls[i] == c;
              assert q.calls[1..][i - 1] == c;
            }
          }
        }
      }
    }
  }

  /** The settings come first: a missing bucket, then a missing DB_NAME (reported as the bucket), raise before any call. */
  lemma SettingsFirst(env: Env, clusters: Value, identity: Value, store: SecretStore, decode: string -> Option<Value>, stored: Value)
    ensures Required(env, BucketVar).Err? ==>
      HandlerPlan(env, clusters, identity, store, decode, stored) == Raise(MissingEnvironmentVariable(BucketVar))
    ensures Required(env, BucketVar).Ok? && Required(env, DbNameVar).Err? ==>
      HandlerPlan(env, clusters, identity, store, decode, stored) == Raise(MissingEnvironmentVariable(BucketVar))
  {
  }

  /** The handler after the ARN is known, carried out. */
  method RunWithArn(provider: Provider, env: Env, bucket: string, db: string, arn: Value, store: SecretStore,
                    decode: string -> Option<Value>, stored: Value) returns (r: Outcome)
    modifies provider
    ensures Carried(provider.outcome, old(provider.calls), provider.calls, AfterArn(env, bucket, db, arn, store, decode, stored), r)
  {
    ghost var before := provider.calls;
    if !Truthy(arn) {
      CarriedToEnd(provider.outcome, before, AfterArn(env, bucket, db, arn, store, decode, stored));
      assert before + [] == before;
      return Err(Failure);
    }
    var cid := Str(BucketClusterId(bucket));
    ghost var q := AfterFetch(env, bucket, db, arn, Fetched(store, decode, cid), stored);
    var found, secret := FetchSecret(provider, store, decode, cid);
    if found.Err? {
      CarriedStopped(provider.outcome, before, provider.calls, FetchPlan(store, decode, cid), found, q);
      return found;
    }
    ghost var mid := provider.calls;
    if !Truthy(secret) {
      CarriedToEnd(provider.outcome, mid, q);
      assert mid + [] == mid;
      r := Err(Failure);
    } else {
      r := ReadAndRun(provider, bucket, DdlFileName(env), stored, Target(arn, secret, Str(db)));
    }
    CarriedThen(provider.outcome, before, mid, provider.calls, FetchPlan(store, decode, cid), found, q, r);
  }

  /** `lambda_handler`, without its two-minute wait. */
  method Handle(provider: Provider, env: Env, clusters: Value, identity: Value, store: SecretStore,
                decode: string -> Option<Value>, stored: Value) returns (r: Outcome)
    modifies provider
    ensures Carried(provider.outcome, old(provider.calls), provider.calls, HandlerPlan(env, clusters, identity, store, decode, stored), r)
  {
    ghost var before := provider.calls;
    ghost var p := HandlerPlan(env, clusters, identity, store, decode, stored);
    var bucket := Required(env, BucketVar);
    if bucket.Err? {
      CarriedToEnd(provider.outcome, before, p);
      return Err(bucket.error);
    }
    var db := RequiredAs(env, DbNameVar, BucketVar);
    if db.Err? {
      CarriedToEnd(provider.outcome, before, p);
      return Err(db.error);
    }
    var describe := Rds(DescribeDbClusters(BucketClusterId(bucket.value)));
    ghost var rest := AfterDescribe(env, bucket.value, db.value, clusters, identity, store, decode, stored);
    var described := Call(provider, describe);
    if described.Err? {
      LeadFailed(provider.outcome, before, describe, rest);
      return described;
    }
    var arn := DescribedArn(clusters);
    if arn.Err? {
      CarriedToEnd(provider.outcome, provider.calls, rest);
      assert provider.calls + [] == provider.calls;
      r := Err(arn.error);
    } else {
      InferenceUnreachable(clusters);
      r := RunWithArn(provider, env, bucket.value, db.value, arn.value, store, decode, stored);
    }
    LeadProceeded(provider.outcome, before, provider.calls, describe, rest, r);
  }
}
