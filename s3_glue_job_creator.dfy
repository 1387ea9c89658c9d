/**
 * lambda/s3-glue-job-creator: every catalogued S3 source without a job gets a Glue job over its
 * catalog table, a workflow and a scheduled trigger starting the job, and is then marked in the
 * tracker as having its job.
 */
module S3GlueJobCreator {
  import opened Errors
  import opened Json
  import opened Validation
  import opened TrackerRecords
  import opened Aws
  import opened Tracker

  const TrackerTableVar := "DDB_GLUE_TRACKER_TABLE_NAME"
  const OutputTableVar := "PII_OUTPUT_TABLE_NAME"
  const AssetsVar := "GLUE_ASSETS_BUCKET"
  const ScriptVar := "GLUE_SCRIPT_BUCKET"
  const RoleVar := "GLUE_ROLE_ARN"
  const RegionVar := "AWS_REGION"

  const ScriptFile := "s3-source-script.py"

  /** Command, Python and Glue versions, retries, timeout, workers, execution class and concurrency of every job. */
  const Shape := JobShape("glueetl", "3", 0, 2880, "G.1X", 10, "4.0", "STANDARD", 1)

  /** Weekdays at 06:00. */
  const Schedule := "cron(0 6 ? * MON-FRI *)"

  /** The job arguments every job starts from. */
  const DefaultArgs: map<string, Value> := map[
    "--enable-metrics" := Str("true"),
    "--enable-spark-ui" := Str("true"),
    "--enable-job-insights" := Str("false"),
    "--enable-glue-datacatalog" := Str("true"),
    "--enable-continuous-cloudwatch-log" := Str("true"),
    "--job-bookmark-option" := Str("job-bookmark-disable"),
    "--job-language" := Str("python")]

  /** The arguments each job adds for its own source. */
  const SourceArgKeys: set<string> := {"--spark-event-logs-path", "--TempDir", "--s3Bucket", "--dataCatalogTable",
    "--dataCatalogDatabase", "--outputTable", "--s3Host", "--region"}

  /** The settings the jobs are built from, once the scan found work. */
  datatype JobSettings = JobSettings(tracker: string, output: string, assets: string, script: string, role: string)

  /**
   * `f"{script_bucket}"` for `os.environ.get(GLUE_SCRIPT_BUCKET)`: the handler never checks that
   * variable (its check re-tests the assets bucket), so an unset one is written as `None`.
   */
  function ScriptBucket(env: Env): string {
    if ScriptVar in env then env[ScriptVar] else "None"
  }

  /**
   * The settings read after a non-empty scan, in order: the output table, the assets bucket
   * and the role are required; the script bucket is taken as it is.
   */
  function Settings(env: Env, tracker: string): (r: Result<JobSettings>)
    ensures r.Ok? <==> Required(env, OutputTableVar).Ok? && Required(env, AssetsVar).Ok? && Required(env, RoleVar).Ok?
    ensures r.Ok? ==> r.value == JobSettings(tracker, env[OutputTableVar], env[AssetsVar], ScriptBucket(env), env[RoleVar])
    ensures Required(env, OutputTableVar).Err? ==> r == Err(MissingEnvironmentVariable(OutputTableVar))
    ensures Required(env, OutputTableVar).Ok? && Required(env, AssetsVar).Err? ==> r == Err(MissingEnvironmentVariable(AssetsVar))
    ensures Required(env, OutputTableVar).Ok? && Required(env, AssetsVar).Ok? && Required(env, RoleVar).Err? ==>
      r == Err(MissingEnvironmentVariable(RoleVar))
  {
    var output :- Required(env, OutputTableVar);
    var assets :- Required(env, AssetsVar);
    var role :- Required(env, RoleVar);
    Ok(JobSettings(tracker, output, assets, ScriptBucket(env), role))
  }

  /** Whether GLUE_SCRIPT_BUCKET is set never decides whether the settings are found. */
  lemma ScriptBucketNotRequired(env: Env, tracker: string)
    ensures Settings(env - {ScriptVar}, tracker).Ok? <==> Settings(env, tracker).Ok?
  {
    assert ScriptVar[5] != AssetsVar[5];
    var unset := env - {ScriptVar};
    assert Required(unset, OutputTableVar) == Required(env, OutputTableVar);
    assert Required(unset, AssetsVar) == Required(env, AssetsVar);
    assert Required(unset, RoleVar) == Required(env, RoleVar);
  }

  /** With GLUE_SCRIPT_BUCKET unset, every job's script is looked for in a bucket named `None`. */
  lemma ScriptBucketUnset(env: Env, tracker: string)
    requires ScriptVar !in env && Settings(env, tracker).Ok?
    ensures ScriptLocation(Settings(env, tracker).value) == "s3://None/s3-source-script.py"
  {
  }

  /** The region the job runs in when the bucket's attributes record none: AWS_REGION, else `noregion`. */
  function DefaultRegion(env: Env): Value {
    Str(if RegionVar in env then env[RegionVar] else "noregion")
  }

  /** The bucket's attributes record its location constraint. */
  ghost predicate Configured(attrs: Value) {
    && attrs.Obj? && "CreateBucketConfiguration" in attrs.fields && attrs.fields["CreateBucketConfiguration"].Obj?
    && "LocationConstraint" in attrs.fields["CreateBucketConfiguration"].fields
  }

  /**
   * `attrs["CreateBucketConfiguration"]["LocationConstraint"]`, where a KeyError at either step
   * falls back to the default region, and any other error is raised.
   */
  function Region(env: Env, attrs: Value): (r: Result<Value>)
    ensures Configured(attrs) ==> r == Ok(attrs.fields["CreateBucketConfiguration"].fields["LocationConstraint"])
    ensures attrs.Obj? && "CreateBucketConfiguration" !in attrs.fields ==> r == Ok(DefaultRegion(env))
    ensures (attrs.Obj? && "CreateBucketConfiguration" in attrs.fields && attrs.fields["CreateBucketConfiguration"].Obj? &&
      "LocationConstraint" !in attrs.fields["CreateBucketConfiguration"].fields) ==> r == Ok(DefaultRegion(env))
    ensures attrs.Obj? && "CreateBucketConfiguration" in attrs.fields && !attrs.fields["CreateBucketConfiguration"].Obj? ==>
      r == Err(TypeError)
  {
    match Key(attrs, "CreateBucketConfiguration")
    case Err(KeyError(_)) => Ok(DefaultRegion(env))
    case Err(e) => Err(e)
    case Ok(config) =>
      match Key(config, "LocationConstraint")
      case Err(KeyError(_)) => Ok(DefaultRegion(env))
      case Err(e) => Err(e)
      case Ok(v) => Ok(v)
  }

  /** What one record contributes to its job. */
  datatype JobSource = JobSource(bucket: Value, catalogTable: Value, catalogDb: Value, region: Value, host: Value)

  /** A record holds everything its job is built from (the region may still come from the environment). */
  predicate Complete(rec: TrackerRecord) {
    && rec.dataSourceAttrs.Obj?
    && var attrs := rec.dataSourceAttrs.fields;
    && "bucketName" in attrs && rec.catalogTableName.Some? && rec.catalogDbName.Some?
    && ("CreateBucketConfiguration" in attrs ==> attrs["CreateBucketConfiguration"].Obj?)
    && "Host" in attrs
  }

  /**
   * The record's fields, read in the handler's order: the bucket name, the catalog table and
   * database, the region, and the host.
   */
  function SourceOf(env: Env, rec: TrackerRecord): Result<JobSource> {
    var bucket :- Key(rec.dataSourceAttrs, "bucketName");
    var table :- Present(rec.catalogTableName, "data_catalog_table_name");
    var db :- Present(rec.catalogDbName, "data_catalog_db_name");
    var region :- Region(env, rec.dataSourceAttrs);
    var host :- Key(rec.dataSourceAttrs, "Host");
    Ok(JobSource(bucket, table, db, region, host))
  }

  /**
   * A record's fields are read exactly when it is complete, and they are its bucket name,
   * catalog table and database, region and host; a missing bucket name is reported first.
   */
  lemma SourceOfFields(env: Env, rec: TrackerRecord)
    ensures SourceOf(env, rec).Ok? <==> Complete(rec)
    ensures SourceOf(env, rec).Ok? ==> SourceOf(env, rec).value == JobSource(rec.dataSourceAttrs.fields["bucketName"],
      rec.catalogTableName.value, rec.catalogDbName.value, Region(env, rec.dataSourceAttrs).value, rec.dataSourceAttrs.fields["Host"])
    ensures rec.dataSourceAttrs.Obj? && "bucketName" !in rec.dataSourceAttrs.fields ==>
      SourceOf(env, rec) == Err(KeyError("bucketName"))
  {
  }

  /** The `{region}-{table}` ending the names of a source's job, workflow and trigger. */
  function Suffix(src: JobSource): string {
    Render(src.region) + "-" + Render(src.catalogTable)
  }

  function JobName(src: JobSource): string {
    "s3-pii-detect-" + Suffix(src)
  }

  function WorkflowName(src: JobSource): string {
    "s3-wf-" + Suffix(src)
  }

  function TriggerName(src: JobSource): string {
    "s3-glue-trigger-" + Suffix(src)
  }

  function ScriptLocation(s: JobSettings): string {
    "s3://" + s.script + "/" + ScriptFile
  }

  /** `create_glue_job`'s arguments: a copy of the defaults with the source's own eight set on it. */
  function Arguments(s: JobSettings, src: JobSource): map<string, Value> {
    DefaultArgs
      ["--spark-event-logs-path" := Str("s3://" + s.assets + "/sparkHistoryLogs/")]
      ["--TempDir" := Str("s3://" + s.assets + "/temporary/")]
      ["--s3Bucket" := src.bucket]
      ["--dataCatalogTable" := src.catalogTable]
      ["--dataCatalogDatabase" := src.catalogDb]
      ["--outputTable" := Str(s.output)]
      ["--s3Host" := src.host]
      ["--region" := src.region]
  }

  /**
   * A job's arguments are the defaults, none of them overridden, plus eight of its own: it
   * reads its source's bucket and catalog table, writes to the output table, and keeps its
   * Spark logs and temporary files in the assets bucket.
   */
  lemma ArgumentsExtendDefaults(s: JobSettings, src: JobSource)
    ensures var args := Arguments(s, src);
      && args.Keys == DefaultArgs.Keys + SourceArgKeys
      && DefaultArgs.Keys !! SourceArgKeys
      && (forall k | k in DefaultArgs :: args[k] == DefaultArgs[k])
      && args["--s3Bucket"] == src.bucket && args["--dataCatalogTable"] == src.catalogTable
      && args["--dataCatalogDatabase"] == src.catalogDb && args["--region"] == src.region
      && args["--s3Host"] == src.host && args["--outputTable"] == Str(s.output)
      && args["--spark-event-logs-path"] == Str("s3://" + s.assets + "/sparkHistoryLogs/")
      && args["--TempDir"] == Str("s3://" + s.assets + "/temporary/")
  {
  }

  /** The calls for one record: its job, its workflow, the trigger starting the job, then the tracker update. */
  function JobCalls(s: JobSettings, id: string, src: JobSource): seq<Request> {
    [Glue(CreateJob(JobName(src), ScriptLocation(s), s.role, Arguments(s, src), Shape)),
     Glue(CreateWorkflow(WorkflowName(src))),
     Glue(CreateTrigger(TriggerName(src), WorkflowName(src), JobName(src), Schedule, true)),
     Dynamo(UpdateGlueJobCreated(s.tracker, id))]
  }

  function RecordPlan(s: JobSettings, env: Env, rec: TrackerRecord): Plan {
    match SourceOf(env, rec)
    case Err(e) => Raise(e)
    case Ok(src) => Calls(JobCalls(s, rec.id, src))
  }

  function RecordPlans(s: JobSettings, env: Env, rs: seq<TrackerRecord>): (ps: seq<Plan>)
    ensures |ps| == |rs|
    ensures forall i | 0 <= i < |rs| :: ps[i] == RecordPlan(s, env, rs[i])
  {
    seq(|rs|, i requires 0 <= i < |rs| => RecordPlan(s, env, rs[i]))
  }

  /**
   * The trigger of a record belongs to the record's workflow and starts the record's job; the
   * three resources are told apart by their prefixes and share the region-and-table suffix.
   */
  lemma TriggerStartsJob(s: JobSettings, id: string, src: JobSource)
    ensures var cs := JobCalls(s, id, src);
      && cs[2].glue.workflow == cs[1].glue.name && cs[2].glue.jobName == cs[0].glue.name
      && cs[0].glue.name != cs[1].glue.name && cs[1].glue.name != cs[2].glue.name && cs[0].glue.name != cs[2].glue.name
      && cs[0].glue.name == "s3-pii-detect-" + Suffix(src) && cs[1].glue.name == "s3-wf-" + Suffix(src)
      && cs[2].glue.name == "s3-glue-trigger-" + Suffix(src)
  {
    assert JobName(src)[3] == 'p' && WorkflowName(src)[3] == 'w' && TriggerName(src)[3] == 'g';
  }

  /** Within a region, two sources get the same job name exactly when their catalog tables render alike. */
  lemma {:induction false} JobNamesDistinct(a: JobSource, b: JobSource)
    requires Render(a.region) == Render(b.region)
    ensures JobName(a) == JobName(b) <==> Render(a.catalogTable) == Render(b.catalogTable)
  {
    var prefix := "s3-pii-detect-" + Render(a.region) + "-";
    assert JobName(a) == prefix + Render(a.catalogTable);
    assert JobName(b) == prefix + Render(b.catalogTable) by {
      assert Suffix(b) == Render(a.region) + "-" + Render(b.catalogTable);
    }
    if JobName(a) == JobName(b) {
      assert Render(a.catalogTable) == JobName(a)[|prefix|..];
      assert Render(b.catalogTable) == JobName(b)[|prefix|..];
    }
  }

  /** The scan of the catalogued records waiting for a job. */
  function Scan(tracker: string): Request {
    Dynamo(ExecuteStatement(Statement(JobPending, tracker)))
  }

  /** What follows an accepted scan that answered `selected`: nothing if it is empty, else the settings and the records. */
  function AfterScan(env: Env, tracker: string, selected: seq<TrackerRecord>): Plan {
    if selected == [] then Done
    else
      match Settings(env, tracker)
      case Err(e) => Raise(e)
      case Ok(s) => Sequence(RecordPlans(s, env, selected))
  }

  /** What `lambda_handler` does when every call goes through. */
  function HandlerPlan(env: Env, selected: seq<TrackerRecord>): Plan {
    match Required(env, TrackerTableVar)
    case Err(e) => Raise(e)
    case Ok(tracker) => Then(Calls([Scan(tracker)]), AfterScan(env, tracker, selected))
  }

  /** An empty scan ends the handler: no other setting is read and nothing is created. */
  lemma EmptyScanStops(env: Env)
    requires Required(env, TrackerTableVar).Ok?
    ensures HandlerPlan(env, []) == Calls([Scan(env[TrackerTableVar])])
  {
  }

  /** The change `update_ddb` makes for one record, once its calls went through. */
  function Marked(items: map<string, TrackerRecord>, rec: TrackerRecord): map<string, TrackerRecord> {
    if Complete(rec) && rec.id in items then items[rec.id := WithGlueJob(items[rec.id])] else items
  }

  /** The tracker after jobs were made for the records `done`, in order. */
  function Jobbed(items: map<string, TrackerRecord>, done: seq<TrackerRecord>): map<string, TrackerRecord>
    decreases |done|
  {
    if done == [] then items else Marked(Jobbed(items, done[..|done| - 1]), done[|done| - 1])
  }

  lemma JobbedSnoc(items: map<string, TrackerRecord>, rs: seq<TrackerRecord>, i: nat)
    requires i < |rs|
    ensures Jobbed(items, rs[..i + 1]) == Marked(Jobbed(items, rs[..i]), rs[i])
  {
    assert rs[..i + 1][..i] == rs[..i];
  }

  /**
   * Making jobs changes no record's source or catalog entry and lowers no flag; a record not
   * among `done` is unchanged, and one that is has its job and is no longer pending.
   */
  lemma {:induction false} JobbedAt(items: map<string, TrackerRecord>, done: seq<TrackerRecord>, id: string)
    ensures id in Jobbed(items, done) <==> id in items
    ensures id in items ==>
      var u := Jobbed(items, done)[id];
      && SameSource(items[id], u) && FlagsKept(items[id], u)
      && u.dataCatalogEntry == items[id].dataCatalogEntry
      && u.catalogTableName == items[id].catalogTableName && u.catalogDbName == items[id].catalogDbName
      && ((forall j | 0 <= j < |done| :: done[j].id != id) ==> u == items[id])
      && ((exists j | 0 <= j < |done| :: done[j].id == id && Complete(done[j])) ==>
            u.glueJobCreated && !Matches(JobPending, u) && !Matches(CatalogPending, u))
    decreases |done|
  {
    if done != [] {
      var prefix := done[..|done| - 1];
      JobbedAt(items, prefix, id);
      if id in items {
        assert (forall j | 0 <= j < |done| :: done[j].id != id) ==> (forall j | 0 <= j < |prefix| :: prefix[j].id != id) by {
          forall j | 0 <= j < |prefix| ensures prefix[j] == done[j] { }
        }
        if exists j | 0 <= j < |done| :: done[j].id == id && Complete(done[j]) {
          var j :| 0 <= j < |done| && done[j].id == id && Complete(done[j]);
          if j < |prefix| {
            assert prefix[j] == done[j];
          }
        }
      }
    }
  }

  /** Giving every selected record its job leaves no record waiting for one. */
  lemma NothingPending(items: map<string, TrackerRecord>, selected: seq<TrackerRecord>)
    requires Selected(items, JobPending, selected)
    requires forall i | 0 <= i < |selected| :: Complete(selected[i])
    ensures forall id | id in Jobbed(items, selected) :: !Matches(JobPending, Jobbed(items, selected)[id])
  {
    forall id | id in Jobbed(items, selected) ensures !Matches(JobPending, Jobbed(items, selected)[id]) {
      JobbedAt(items, selected, id);
      if Matches(JobPending, items[id]) {
        var i :| 0 <= i < |selected| && selected[i].id == id;
        assert Complete(selected[i]);
      }
    }
  }

  /**
   * Only the records the scan selected are touched: a source still waiting for its catalog
   * entry, or one that already has a job, is left exactly as it was.
   */
  lemma OthersUntouched(items: map<string, TrackerRecord>, selected: seq<TrackerRecord>, k: nat, id: string)
    requires Selected(items, JobPending, selected) && k <= |selected|
    requires id in items && !Matches(JobPending, items[id])
    ensures id in Jobbed(items, selected[..k]) && Jobbed(items, selected[..k])[id] == items[id]
  {
    JobbedAt(items, selected[..k], id);
    forall j | 0 <= j < k ensures selected[..k][j].id != id {
      assert selected[..k][j] == selected[j];
    }
  }

  /** With nothing waiting for a job, a re-run scans and stops. */
  lemma RerunDoesNothing(items: map<string, TrackerRecord>, selected: seq<TrackerRecord>, env: Env)
    requires forall id | id in items :: !Matches(JobPending, items[id])
    requires Selected(items, JobPending, selected)
    requires Required(env, TrackerTableVar).Ok?
    ensures HandlerPlan(env, selected) == Calls([Scan(env[TrackerTableVar])])
  {
    SelectedNothing(items, JobPending, selected);
  }

  /** The Glue side of a record's calls: its job, then its workflow, then its trigger. */
  function JobResources(s: JobSettings, src: JobSource): seq<Request> {
    [Glue(CreateJob(JobName(src), ScriptLocation(s), s.role, Arguments(s, src), Shape)),
     Glue(CreateWorkflow(WorkflowName(src))),
     Glue(CreateTrigger(TriggerName(src), WorkflowName(src), JobName(src), Schedule, true))]
  }

  /** The job, the workflow and the trigger, each made after the previous was accepted. */
  method CreateResources(provider: Provider, s: JobSettings, src: JobSource) returns (r: Outcome)
    modifies provider
    ensures Carried(provider.outcome, old(provider.calls), provider.calls, Calls(JobResources(s, src)), r)
  {
    var job := Glue(CreateJob(JobName(src), ScriptLocation(s), s.role, Arguments(s, src), Shape));
    var workflow := Glue(CreateWorkflow(WorkflowName(src)));
    var trigger := Glue(CreateTrigger(TriggerName(src), WorkflowName(src), JobName(src), Schedule, true));
    CarriedThree(provider.outcome, provider.calls, job, workflow, trigger);
    r := Call(provider, job);
    if r.Ok? {
      r := Call(provider, workflow);
      if r.Ok? {
        r := Call(provider, trigger);
      }
    }
  }

  /** The four calls for the record `id` with source `src`. */
  method CreateJobAndMark(provider: Provider, table: TrackerTable, s: JobSettings, id: string, src: JobSource)
    returns (r: Outcome)
    requires table.Valid() && id in table.items && table.items[id].dataCatalogEntry
    modifies provider, table
    ensures table.Valid() && table.items.Keys == old(table.items).Keys
    ensures Carried(provider.outcome, old(provider.calls), provider.calls, Calls(JobCalls(s, id, src)), r)
    ensures table.items == if r.Ok? then old(table.items)[id := WithGlueJob(old(table.items)[id])] else old(table.items)
    ensures table.items == Effect(old(table.items), provider.outcome, |old(provider.calls)|, provider.calls[|old(provider.calls)|..])
  {
    ghost var before := provider.calls;
    ghost var items := table.items;
    var update := Dynamo(UpdateGlueJobCreated(s.tracker, id));
    assert Then(Calls(JobResources(s, src)), Calls([update])) == Calls(JobCalls(s, id, src));
    r := CreateResources(provider, s, src);
    CarriedWritesNothing(items, provider.outcome, before, provider.calls, Calls(JobResources(s, src)), r);
    if r.Err? {
      CarriedStopped(provider.outcome, before, provider.calls, Calls(JobResources(s, src)), r, Calls([update]));
      return;
    }
    ghost var mid := provider.calls;
    var reply := provider.Invoke(update);
    EffectCall(items, provider.outcome, before, mid, update);
    r := table.SetGlueJobCreated(s.tracker, id, reply);
    CarriedSingle(provider.outcome, mid, update);
    CarriedThen(provider.outcome, before, mid, provider.calls, Calls(JobResources(s, src)), Pass, Calls([update]), r);
  }

  /** One record: read its fields, then make its job, workflow and trigger and mark it. */
  method JobOne(provider: Provider, table: TrackerTable, s: JobSettings, env: Env, rec: TrackerRecord)
    returns (r: Outcome)
    requires table.Valid() && rec.id in table.items && table.items[rec.id].dataCatalogEntry
    modifies provider, table
    ensures table.Valid() && table.items.Keys == old(table.items).Keys
    ensures Carried(provider.outcome, old(provider.calls), provider.calls, RecordPlan(s, env, rec), r)
    ensures table.items == if r.Ok? then Marked(old(table.items), rec) else old(table.items)
    ensures table.items == Effect(old(table.items), provider.outcome, |old(provider.calls)|, provider.calls[|old(provider.calls)|..])
  {
    var src := SourceOf(env, rec);
    SourceOfFields(env, rec);
    if src.Err? {
      EffectNone(table.items, provider.outcome, provider.calls);
      CarriedToEnd(provider.outcome, provider.calls, RecordPlan(s, env, rec));
      return Err(src.error);
    }
    r := CreateJobAndMark(provider, table, s, rec.id, src.value);
  }

  /** The records in scan order; the first failure ends the handler. */
  method JobAll(provider: Provider, table: TrackerTable, s: JobSettings, env: Env, rs: seq<TrackerRecord>)
    returns (r: Outcome, ghost advanced: nat)
    requires table.Valid()
    requires forall i | 0 <= i < |rs| :: rs[i].id in table.items && table.items[rs[i].id].dataCatalogEntry
    modifies provider, table
    ensures table.Valid()
    ensures Carried(provider.outcome, old(provider.calls), provider.calls, Sequence(RecordPlans(s, env, rs)), r)
    ensures advanced <= |rs| && table.items == Jobbed(old(table.items), rs[..advanced])
    ensures table.items == Effect(old(table.items), provider.outcome, |old(provider.calls)|, provider.calls[|old(provider.calls)|..])
    ensures r.Ok? ==> advanced == |rs|
    ensures r.Err? ==> advanced < |rs|
  {
    ghost var start := provider.calls;
    ghost var items := table.items;
    ghost var ps := RecordPlans(s, env, rs);
    SequenceStart(provider.outcome, start, ps);
    EffectNone(items, provider.outcome, start);
    var i := 0;
    while i < |rs|
      invariant 0 <= i <= |rs|
      invariant table.Valid() && table.items.Keys == items.Keys
      invariant table.items == Jobbed(items, rs[..i])
      invariant |start| <= |provider.calls| && table.items == Effect(items, provider.outcome, |start|, provider.calls[|start|..])
      invariant Carried(provider.outcome, start, provider.calls, Sequence(ps[..i]), Pass)
    {
      JobbedAt(items, rs[..i], rs[i].id);
      ghost var mid := provider.calls;
      ghost var sofar := table.items;
      var step := JobOne(provider, table, s, env, rs[i]);
      JobStepped(provider.outcome, start, mid, provider.calls, s, env, rs, i, step, items, sofar, table.items);
      if step.Err? {
        return step, i;
      }
      i := i + 1;
    }
    SequenceEnd(provider.outcome, start, provider.calls, ps, Pass);
    assert rs[..|rs|] == rs;
    return Pass, |rs|;
  }

  /**
   * One more record carried out after the earlier ones went through: the run is carried out one
   * record further (and ends there if it failed), and the table is the fold one record further.
   */
  lemma JobStepped(outcome: nat -> Reply, start: seq<Request>, mid: seq<Request>, after: seq<Request>,
                   s: JobSettings, env: Env, rs: seq<TrackerRecord>, i: nat, r: Outcome,
                   items: map<string, TrackerRecord>, sofar: map<string, TrackerRecord>, now: map<string, TrackerRecord>)
    requires i < |rs|
    requires Carried(outcome, start, mid, Sequence(RecordPlans(s, env, rs)[..i]), Pass)
    requires Carried(outcome, mid, after, RecordPlan(s, env, rs[i]), r)
    requires sofar == Jobbed(items, rs[..i])
    requires now == if r.Ok? then Marked(sofar, rs[i]) else sofar
    requires |start| <= |mid| && sofar == Effect(items, outcome, |start|, mid[|start|..])
    requires now == Effect(sofar, outcome, |mid|, after[|mid|..])
    ensures Carried(outcome, start, after, Sequence(RecordPlans(s, env, rs)[..i + 1]), r)
    ensures r.Err? ==> Carried(outcome, start, after, Sequence(RecordPlans(s, env, rs)), r)
    ensures r.Ok? ==> now == Jobbed(items, rs[..i + 1])
    ensures |start| <= |after| && now == Effect(items, outcome, |start|, after[|start|..])
  {
    CarriedExtends(outcome, mid, after, RecordPlan(s, env, rs[i]), r);
    EffectThen(items, outcome, start, mid, after);
    SequenceStep(outcome, start, mid, after, RecordPlans(s, env, rs), i, r);
    JobbedSnoc(items, rs, i);
  }

  /** A run of the records that raised nothing found every record complete. */
  lemma RecordsComplete(outcome: nat -> Reply, before: seq<Request>, after: seq<Request>,
                        s: JobSettings, env: Env, rs: seq<TrackerRecord>)
    requires Carried(outcome, before, after, Sequence(RecordPlans(s, env, rs)), Pass)
    ensures forall i | 0 <= i < |rs| :: Complete(rs[i])
  {
    var ps := RecordPlans(s, env, rs);
    SequenceFaultless(ps);
    forall i | 0 <= i < |rs| ensures Complete(rs[i]) {
      assert ps[i].fault.None?;
      SourceOfFields(env, rs[i]);
    }
  }

  /** The handler after an accepted scan that answered `rs`. */
  method JobSelected(provider: Provider, table: TrackerTable, env: Env, tracker: string, rs: seq<TrackerRecord>)
    returns (r: Outcome, ghost advanced: nat)
    requires table.Valid() && Selected(table.items, JobPending, rs)
    modifies provider, table
    ensures table.Valid()
    ensures Carried(provider.outcome, old(provider.calls), provider.calls, AfterScan(env, tracker, rs), r)
    ensures advanced <= |rs| && table.items == Jobbed(old(table.items), rs[..advanced])
    ensures table.items == Effect(old(table.items), provider.outcome, |old(provider.calls)|, provider.calls[|old(provider.calls)|..])
    ensures r.Ok? ==> advanced == |rs| && forall id | id in table.items :: !Matches(JobPending, table.items[id])
    ensures r.Err? ==> advanced < |rs|
  {
    ghost var before := provider.calls;
    ghost var items := table.items;
    advanced := 0;
    EffectNone(items, provider.outcome, before);
    assert rs[..0] == [];
    var s := Settings(env, tracker);
    if rs == [] || s.Err? {
      CarriedToEnd(provider.outcome, before, AfterScan(env, tracker, rs));
      assert before + [] == before;
      SelectedNothingPending(items, rs);
      return (if rs == [] then Pass else Err(s.error)), advanced;
    }
    r, advanced := JobAll(provider, table, s.value, env, rs);
    if r.Ok? {
      RecordsComplete(provider.outcome, before, provider.calls, s.value, env, rs);
      NothingPending(items, rs);
      assert rs[..advanced] == rs;
    }
  }

  /** An empty scan means no record was waiting for a job. */
  lemma SelectedNothingPending(items: map<string, TrackerRecord>, rs: seq<TrackerRecord>)
    requires Selected(items, JobPending, rs)
    ensures rs == [] ==> forall id | id in items :: !Matches(JobPending, items[id])
  {
  }

  /** The scan of `tracker`, made after the log `before`, was accepted. */
  ghost predicate ScanAccepted(outcome: nat -> Reply, before: seq<Request>, tracker: string) {
    Proceeds(Scan(tracker), outcome(|before|))
  }

  /** The scan was made and accepted, so the handler saw the selection. */
  ghost predicate Scanned(outcome: nat -> Reply, before: seq<Request>, env: Env) {
    Required(env, TrackerTableVar).Ok? && ScanAccepted(outcome, before, env[TrackerTableVar])
  }

  /**
   * `lambda_handler`. `selected` is what the scan answered and `advanced` how many of those
   * records got their job before the handler stopped; a run that succeeds gives every one of
   * them its job, after which no record is waiting for one.
   */
  method Handle(provider: Provider, table: TrackerTable, env: Env)
    returns (r: Outcome, ghost selected: seq<TrackerRecord>, ghost advanced: nat)
    requires table.Valid()
    modifies provider, table
    ensures table.Valid()
    ensures Scanned(provider.outcome, old(provider.calls), env) ==> Selected(old(table.items), JobPending, selected)
    ensures !Scanned(provider.outcome, old(provider.calls), env) ==> selected == []
    ensures Carried(provider.outcome, old(provider.calls), provider.calls, HandlerPlan(env, selected), r)
    ensures advanced <= |selected| && table.items == Jobbed(old(table.items), selected[..advanced])
    ensures table.items == Effect(old(table.items), provider.outcome, |old(provider.calls)|, provider.calls[|old(provider.calls)|..])
    ensures r.Ok? ==> advanced == |selected| && forall id | id in table.items :: !Matches(JobPending, table.items[id])
    ensures r.Err? ==> advanced < |selected| || selected == []
  {
    var tracker := Required(env, TrackerTableVar);
    if tracker.Err? {
      selected, advanced := [], 0;
      EffectNone(table.items, provider.outcome, provider.calls);
      assert selected[..0] == [];
      CarriedToEnd(provider.outcome, provider.calls, HandlerPlan(env, selected));
      return Err(tracker.error), selected, advanced;
    }
    r, selected, advanced := ScanAndJob(provider, table, env, tracker.value);
  }

  /** The handler from its scan of the tracker table `tracker` on. */
  method ScanAndJob(provider: Provider, table: TrackerTable, env: Env, tracker: string)
    returns (r: Outcome, ghost selected: seq<TrackerRecord>, ghost advanced: nat)
    requires table.Valid()
    modifies provider, table
    ensures table.Valid()
    ensures ScanAccepted(provider.outcome, old(provider.calls), tracker) ==> Selected(old(table.items), JobPending, selected)
    ensures !ScanAccepted(provider.outcome, old(provider.calls), tracker) ==> selected == []
    ensures Carried(provider.outcome, old(provider.calls), provider.calls, Then(Calls([Scan(tracker)]), AfterScan(env, tracker, selected)), r)
    ensures advanced <= |selected| && table.items == Jobbed(old(table.items), selected[..advanced])
    ensures table.items == Effect(old(table.items), provider.outcome, |old(provider.calls)|, provider.calls[|old(provider.calls)|..])
    ensures r.Ok? ==> advanced == |selected| && forall id | id in table.items :: !Matches(JobPending, table.items[id])
    ensures r.Err? ==> advanced < |selected| || selected == []
  {
    ghost var before := provider.calls;
    ghost var items := table.items;
    selected, advanced := [], 0;
    assert Jobbed(items, selected[..0]) == items;
    var scanned := Call(provider, Scan(tracker));
    if scanned.Err? {
      ScanFailed(provider.outcome, before, items, Scan(tracker), AfterScan(env, tracker, selected));
      return scanned, selected, advanced;
    }
    ghost var mid := provider.calls;
    r, selected, advanced := SelectAndJob(provider, table, env, tracker);
    ScanProceeded(provider.outcome, before, provider.calls, items, table.items, Scan(tracker), AfterScan(env, tracker, selected), r);
  }

  /** A refused scan is the handler's only call, and the table is as it was. */
  lemma ScanFailed(outcome: nat -> Reply, before: seq<Request>, items: map<string, TrackerRecord>, c: Request, q: Plan)
    requires !Proceeds(c, outcome(|before|)) && !TrackerWrite(c)
    ensures Carried(outcome, before, before + [c], Then(Calls([c]), q), Check(c, outcome(|before|)))
    ensures items == Effect(items, outcome, |before|, (before + [c])[|before|..])
  {
    LeadFailed(outcome, before, c, q);
    EffectNone(items, outcome, before);
    EffectCall(items, outcome, before, before, c);
  }

  /** An accepted scan, then the rest carried out: the whole is carried out, and only the rest changes the table. */
  lemma ScanProceeded(outcome: nat -> Reply, before: seq<Request>, after: seq<Request>,
                      items: map<string, TrackerRecord>, now: map<string, TrackerRecord>, c: Request, q: Plan, r: Outcome)
    requires Proceeds(c, outcome(|before|)) && !TrackerWrite(c)
    requires Carried(outcome, before + [c], after, q, r)
    requires now == Effect(items, outcome, |before| + 1, after[|before| + 1..])
    ensures Carried(outcome, before, after, Then(Calls([c]), q), r)
    ensures now == Effect(items, outcome, |before|, after[|before|..])
  {
    CarriedExtends(outcome, before + [c], after, q, r);
    EffectNone(items, outcome, before);
    EffectCall(items, outcome, before, before, c);
    EffectThen(items, outcome, before, before + [c], after);
    LeadProceeded(outcome, before, after, c, q, r);
  }

  /** The handler after an accepted scan: the selection of the records waiting for a job, then their jobs. */
  method SelectAndJob(provider: Provider, table: TrackerTable, env: Env, tracker: string)
    returns (r: Outcome, ghost selected: seq<TrackerRecord>, ghost advanced: nat)
    requires table.Valid()
    modifies provider, table
    ensures table.Valid()
    ensures Selected(old(table.items), JobPending, selected)
    ensures Carried(provider.outcome, old(provider.calls), provider.calls, AfterScan(env, tracker, selected), r)
    ensures advanced <= |selected| && table.items == Jobbed(old(table.items), selected[..advanced])
    ensures table.items == Effect(old(table.items), provider.outcome, |old(provider.calls)|, provider.calls[|old(provider.calls)|..])
    ensures r.Ok? ==> advanced == |selected| && forall id | id in table.items :: !Matches(JobPending, table.items[id])
    ensures r.Err? ==> advanced < |selected|
  {
    var rs := table.Select(JobPending);
    selected := rs;
    r, advanced := JobSelected(provider, table, env, tracker, rs);
  }
}
