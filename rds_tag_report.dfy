/**
 * lambda/rds-tag-report: for every catalogued RDS source, the Glue connection it was catalogued
 * through is read, the Aurora cluster named in its JDBC URL is described, and the cluster's tags
 * are listed; when a required tag is among them, one row is written to `tagCaptureTable`. The
 * tracker table is only scanned.
 */
module RdsTagReport {
  import opened Errors
  import opened Json
  import opened Text
  import opened Validation
  import opened TrackerRecords
  import opened Aws
  import opened Tracker
  import opened TagReport

  /**
   * What the accepted reads answer: the caller's account, `get_connection` for a connection name
   * (its body without ResponseMetadata), `describe_db_clusters` for a cluster id (likewise), and
   * the TagList of `list_tags_for_resource` for an ARN ([] when it has none).
   */
  datatype Directory = Directory(
    account: string,
    connections: Value -> Value,
    clusters: string -> Value,
    tagLists: Value -> seq<Tag>)

  /** `obj["data_source_attrs"]["connectionName"]`. */
  function ConnectionName(rec: TrackerRecord): Result<Value> {
    Key(rec.dataSourceAttrs, "connectionName")
  }

  /**
   * `get_glue_connection`'s `Connection` check, then the handler's checks of its
   * `ConnectionProperties` and `JDBC_CONNECTION_URL`: the URL, or MalformedEvent for the first
   * that is missing or falsy.
   */
  function JdbcUrl(resp: Value): (r: Result<Value>)
    ensures r.Ok? <==>
      && CheckMissingField(resp, "Connection").Ok?
      && CheckMissingField(resp.fields["Connection"], "ConnectionProperties").Ok?
      && CheckMissingField(resp.fields["Connection"].fields["ConnectionProperties"], "JDBC_CONNECTION_URL").Ok?
    ensures r.Ok? ==> r.value == resp.fields["Connection"].fields["ConnectionProperties"].fields["JDBC_CONNECTION_URL"]
    ensures r.Ok? ==> Truthy(r.value)
    ensures r.Err? ==> r.error == MalformedEvent || r.error == AttributeError
    ensures resp.Obj? && !Truthy(Field(resp, "Connection")) ==> r == Err(MalformedEvent)
  {
    var _ :- CheckMissingField(resp, "Connection");
    var conn := resp.fields["Connection"];
    var _ :- CheckMissingField(conn, "ConnectionProperties");
    var props := conn.fields["ConnectionProperties"];
    var _ :- CheckMissingField(props, "JDBC_CONNECTION_URL");
    Ok(props.fields["JDBC_CONNECTION_URL"])
  }

  /**
   * `conn_url.split("://")[1].split(".")[0]`: a URL that is not a string has no `split`, and one
   * without `://` has no second piece.
   */
  function ClusterId(url: Value): (r: Result<string>)
    ensures r.Ok? <==> url.Str? && Contains(url.s, "://")
    ensures !url.Str? ==> r == Err(AttributeError)
    ensures url.Str? && !Contains(url.s, "://") ==> r == Err(IndexError)
  {
    if !url.Str? then Err(AttributeError)
    else
      var pieces := Split(url.s, "://");
      SplitSecond(url.s, "://");
      if |pieces| < 2 then Err(IndexError) else Ok(Split(pieces[1], ".")[0])
  }

  /**
   * The cluster id is the host name's first label: the text right after the first `://`, up to
   * the first `.`, or to the next `://` or the end when there is no `.` before them.
   */
  lemma ClusterIdShape(url: Value)
    requires ClusterId(url).Ok?
    ensures var i := FindFirst(url.s, "://").value;
      var rest := url.s[i + 3..];
      var id := ClusterId(url).value;
      && OccursAt(url.s, "://", i) && (forall j: nat | j < i :: !OccursAt(url.s, "://", j))
      && |id| <= |rest| && id == rest[..|id|]
      && (forall j | 0 <= j < |id| :: id[j] != '.')
      && (|id| == |rest| || rest[|id|] == '.' || OccursAt(rest, "://", |id|))
  {
    SplitSecond(url.s, "://");
    var i := FindFirst(url.s, "://").value;
    FirstLabel(url.s[i + 3..]);
  }

  /** The first `.`-separated label of the text before the first `://` of `rest`, as a prefix of `rest`. */
  lemma FirstLabel(rest: string)
    ensures var id := Split(Split(rest, "://")[0], ".")[0];
      && |id| <= |rest| && id == rest[..|id|]
      && (forall j | 0 <= j < |id| :: id[j] != '.')
      && (|id| == |rest| || rest[|id|] == '.' || OccursAt(rest, "://", |id|))
  {
    var host := Split(rest, "://")[0];
    SplitHead(rest, "://");
    SplitHead(host, ".");
    LabelOf(rest, host, Split(host, ".")[0]);
  }

  /** A prefix `id` of the prefix `host` of `rest`, each ending where the split put it, ends at a `.`, a `://` or the end. */
  lemma LabelOf(rest: string, host: string, id: string)
    requires |host| <= |rest| && host == rest[..|host|] && (|host| == |rest| || OccursAt(rest, "://", |host|))
    requires |id| <= |host| && id == host[..|id|] && !Contains(id, ".") && (|id| == |host| || OccursAt(host, ".", |id|))
    ensures |id| <= |rest| && id == rest[..|id|]
    ensures forall j | 0 <= j < |id| :: id[j] != '.'
    ensures |id| == |rest| || rest[|id|] == '.' || OccursAt(rest, "://", |id|)
  {
    AbsentChar(id, '.');
    if |id| < |host| {
      assert host[|id|..|id| + 1] == ".";
      assert rest[|id|] == host[|id|];
    }
  }

  /** The Glue connection's JDBC URL, then the cluster id in it. */
  function ConnectionCluster(resp: Value): (r: Result<string>)
    ensures r.Ok? <==> JdbcUrl(resp).Ok? && ClusterId(JdbcUrl(resp).value).Ok?
    ensures r.Ok? ==> r.value == ClusterId(JdbcUrl(resp).value).value
  {
    var url :- JdbcUrl(resp);
    ClusterId(url)
  }

  /** `desc_db_resp["DBClusters"][0]["DBClusterArn"]`: the first described cluster's ARN. */
  function ClusterArn(desc: Value): (r: Result<Value>)
    ensures r.Ok? <==>
      && desc.Obj? && "DBClusters" in desc.fields
      && desc.fields["DBClusters"].Arr? && |desc.fields["DBClusters"].items| > 0
      && desc.fields["DBClusters"].items[0].Obj? && "DBClusterArn" in desc.fields["DBClusters"].items[0].fields
    ensures r.Ok? ==> r.value == desc.fields["DBClusters"].items[0].fields["DBClusterArn"]
    ensures desc.Obj? && "DBClusters" !in desc.fields ==> r == Err(KeyError("DBClusters"))
    ensures desc.Obj? && "DBClusters" in desc.fields && desc.fields["DBClusters"] == Arr([]) ==> r == Err(IndexError)
  {
    var clusters :- Key(desc, "DBClusters");
    var first :- At(clusters, 0);
    Key(first, "DBClusterArn")
  }

  /** After the cluster was described as `desc`: its ARN, the tag listing, then the report. */
  function TagPlan(dir: Directory, st: Stamps, rec: TrackerRecord, k: nat, desc: Value): Plan {
    match ClusterArn(desc)
    case Err(e) => Raise(e)
    case Ok(arn) =>
      Then(Calls([Rds(ListTagsForResource(arn))]), Report(TagCaptureTable, dir.tagLists(arn), rec, st.ids(k), st.times(k)))
  }

  /** After the connection was read as `resp`: the cluster id, its description, then the tags. */
  function ClusterPlan(dir: Directory, st: Stamps, rec: TrackerRecord, k: nat, resp: Value): Plan {
    match ConnectionCluster(resp)
    case Err(e) => Raise(e)
    case Ok(id) => Then(Calls([Rds(DescribeDbClusters(id))]), TagPlan(dir, st, rec, k, dir.clusters(id)))
  }

  /**
   * The turn of the k-th record: the connection name, the account lookup `get_glue_connection`
   * makes on each call, the connection, then the cluster.
   */
  function RecordPlan(dir: Directory, st: Stamps, rec: TrackerRecord, k: nat): Plan {
    match ConnectionName(rec)
    case Err(e) => Raise(e)
    case Ok(name) =>
      Then(Calls([GetCallerIdentity]),
        Then(Calls([Glue(GetConnection(dir.account, name))]), ClusterPlan(dir, st, rec, k, dir.connections(name))))
  }

  function RecordPlans(dir: Directory, st: Stamps, rs: seq<TrackerRecord>): (ps: seq<Plan>)
    ensures |ps| == |rs|
    ensures forall i | 0 <= i < |rs| :: ps[i] == RecordPlan(dir, st, rs[i], i)
  {
    seq(|rs|, i requires 0 <= i < |rs| => RecordPlan(dir, st, rs[i], i))
  }

  /**
   * A record whose connection, URL and cluster description are well-formed makes, in order, the
   * account lookup, the read of its own connection in that account, the description of the
   * cluster its URL names, and the tag listing of that cluster's ARN; then at most the one row,
   * written exactly when the cluster is tagged, the catalog table name is recorded and some tag
   * is required.
   */
  lemma RecordWritesRow(dir: Directory, st: Stamps, rec: TrackerRecord, k: nat)
    requires ConnectionName(rec).Ok?
    requires ConnectionCluster(dir.connections(ConnectionName(rec).value)).Ok?
    requires ClusterArn(dir.clusters(ConnectionCluster(dir.connections(ConnectionName(rec).value)).value)).Ok?
    ensures var p := RecordPlan(dir, st, rec, k);
      var name := ConnectionName(rec).value;
      var id := ConnectionCluster(dir.connections(name)).value;
      var arn := ClusterArn(dir.clusters(id)).value;
      var tags := dir.tagLists(arn);
      && 4 <= |p.calls| <= 5
      && p.calls[..4] == [GetCallerIdentity, Glue(GetConnection(dir.account, name)), Rds(DescribeDbClusters(id)), Rds(ListTagsForResource(arn))]
      && (|p.calls| == 5 <==> tags != [] && rec.catalogTableName.Some? && exists i | 0 <= i < |tags| :: tags[i].key in RequiredTagKeys)
      && (|p.calls| == 5 ==> p.calls[4] == Dynamo(PutReportRow(TagCaptureTable, Row(Filtered(tags), st.ids(k), rec.catalogTableName.value, st.times(k)))))
      && (p.fault.Some? ==> tags != [] && p.fault == Some(KeyError("data_catalog_table_name")))
  {
    var name := ConnectionName(rec).value;
    var id := ConnectionCluster(dir.connections(name)).value;
    var arn := ClusterArn(dir.clusters(id)).value;
    ReportRow(TagCaptureTable, dir.tagLists(arn), rec, st.ids(k), st.times(k));
  }

  /** The kinds of call a record's turn makes; its rows go to `tagCaptureTable`. */
  predicate RecordCall(c: Request) {
    || c.GetCallerIdentity? || (c.Glue? && c.glue.GetConnection?)
    || (c.Rds? && (c.rds.DescribeDbClusters? || c.rds.ListTagsForResource?))
    || (c.Dynamo? && c.dynamo.PutReportRow? && c.dynamo.table == TagCaptureTable)
  }

  lemma RecordCalls(dir: Directory, st: Stamps, rec: TrackerRecord, k: nat)
    ensures forall c | c in RecordPlan(dir, st, rec, k).calls :: RecordCall(c)
  {
    var name := ConnectionName(rec);
    if name.Ok? {
      var cluster := ConnectionCluster(dir.connections(name.value));
      if cluster.Ok? {
        var arn := ClusterArn(dir.clusters(cluster.value));
        if arn.Ok? {
          ReportRow(TagCaptureTable, dir.tagLists(arn.value), rec, st.ids(k), st.times(k));
        }
      }
    }
  }

  /** What follows an accepted scan that answered `selected`. */
  function AfterScan(dir: Directory, st: Stamps, selected: seq<TrackerRecord>): Plan {
    if selected == [] then Done else Sequence(RecordPlans(dir, st, selected))
  }

  /** What `lambda_handler` does when every call goes through and its scan answers `selected`. */
  function HandlerPlan(env: Env, dir: Directory, st: Stamps, selected: seq<TrackerRecord>): Plan {
    match Settings(env)
    case Err(e) => Raise(e)
    case Ok(names) => Then(Calls([Scan(names.0, "rds")]), AfterScan(dir, st, selected))
  }

  /**
   * The handler writes nothing to the tracker table, and its rows go to `tagCaptureTable`
   * whatever TAG_REPORT_TABLE_NAME says.
   */
  lemma ReadsTrackerOnly(env: Env, dir: Directory, st: Stamps, selected: seq<TrackerRecord>)
    ensures forall c | c in HandlerPlan(env, dir, st, selected).calls :: !TrackerWrite(c)
    ensures forall c | c in HandlerPlan(env, dir, st, selected).calls && c.Dynamo? && c.dynamo.PutReportRow? ::
      c.dynamo.table == TagCaptureTable
  {
    if Settings(env).Ok? && selected != [] {
      var ps := RecordPlans(dir, st, selected);
      SequenceCalls(ps);
      forall i | 0 <= i < |ps| ensures forall c | c in ps[i].calls :: RecordCall(c) {
        RecordCalls(dir, st, selected[i], i);
      }
    }
  }

  /** Both table names are required before the scan; an empty scan ends the handler with nothing written. */
  lemma SettingsFirst(env: Env, dir: Directory, st: Stamps, selected: seq<TrackerRecord>)
    ensures Settings(env).Err? ==> HandlerPlan(env, dir, st, selected) == Raise(Settings(env).error)
    ensures Settings(env).Ok? && selected == [] ==> HandlerPlan(env, dir, st, selected) == Calls([Scan(env[TrackerTableVar], "rds")])
  {
  }

  /** The cluster's tags, once it was described as `desc`. */
  method ReportCluster(provider: Provider, dir: Directory, st: Stamps, rec: TrackerRecord, k: nat, desc: Value)
    returns (r: Outcome)
    modifies provider
    ensures Carried(provider.outcome, old(provider.calls), provider.calls, TagPlan(dir, st, rec, k, desc), r)
  {
    ghost var before := provider.calls;
    var arn := ClusterArn(desc);
    if arn.Err? {
      CarriedToEnd(provider.outcome, before, TagPlan(dir, st, rec, k, desc));
      return Err(arn.error);
    }
    var list := Rds(ListTagsForResource(arn.value));
    ghost var q := Report(TagCaptureTable, dir.tagLists(arn.value), rec, st.ids(k), st.times(k));
    var listed := Call(provider, list);
    if listed.Err? {
      LeadFailed(provider.outcome, before, list, q);
      return listed;
    }
    r := ReportTags(provider, TagCaptureTable, dir.tagLists(arn.value), rec, st.ids(k), st.times(k));
    LeadProceeded(provider.outcome, before, provider.calls, list, q, r);
  }

  /** The cluster named by the connection, once the connection was read as `resp`. */
  method DescribeCluster(provider: Provider, dir: Directory, st: Stamps, rec: TrackerRecord, k: nat, resp: Value)
    returns (r: Outcome)
    modifies provider
    ensures Carried(provider.outcome, old(provider.calls), provider.calls, ClusterPlan(dir, st, rec, k, resp), r)
  {
    ghost var before := provider.calls;
    var id := ConnectionCluster(resp);
    if id.Err? {
      CarriedToEnd(provider.outcome, before, ClusterPlan(dir, st, rec, k, resp));
      return Err(id.error);
    }
    var describe := Rds(DescribeDbClusters(id.value));
    ghost var q := TagPlan(dir, st, rec, k, dir.clusters(id.value));
    var described := Call(provider, describe);
    if described.Err? {
      LeadFailed(provider.outcome, before, describe, q);
      return described;
    }
    r := ReportCluster(provider, dir, st, rec, k, dir.clusters(id.value));
    LeadProceeded(provider.outcome, before, provider.calls, describe, q, r);
  }

  /** `get_glue_connection` (the account lookup, then the connection), then the cluster. */
  method ReadConnection(provider: Provider, dir: Directory, st: Stamps, rec: TrackerRecord, k: nat, name: Value)
    returns (r: Outcome)
    modifies provider
    ensures Carried(provider.outcome, old(provider.calls), provider.calls,
      Then(Calls([GetCallerIdentity]), Then(Calls([Glue(GetConnection(dir.account, name))]), ClusterPlan(dir, st, rec, k, dir.connections(name)))), r)
  {
    ghost var before := provider.calls;
    var get := Glue(GetConnection(dir.account, name));
    ghost var q := ClusterPlan(dir, st, rec, k, dir.connections(name));
    var identified := Call(provider, GetCallerIdentity);
    if identified.Err? {
      LeadFailed(provider.outcome, before, GetCallerIdentity, Then(Calls([get]), q));
      return identified;
    }
    ghost var mid := provider.calls;
    var read := Call(provider, get);
    if read.Err? {
      LeadFailed(provider.outcome, mid, get, q);
      LeadProceeded(provider.outcome, before, provider.calls, GetCallerIdentity, Then(Calls([get]), q), read);
      return read;
    }
    r := DescribeCluster(provider, dir, st, rec, k, dir.connections(name));
    LeadProceeded(provider.outcome, mid, provider.calls, get, q, r);
    LeadProceeded(provider.outcome, before, provider.calls, GetCallerIdentity, Then(Calls([get]), q), r);
  }

  /** The k-th record's turn. */
  method ReportOne(provider: Provider, dir: Directory, st: Stamps, rec: TrackerRecord, k: nat) returns (r: Outcome)
    modifies provider
    ensures Carried(provider.outcome, old(provider.calls), provider.calls, RecordPlan(dir, st, rec, k), r)
  {
    var name := ConnectionName(rec);
    if name.Err? {
      CarriedToEnd(provider.outcome, provider.calls, RecordPlan(dir, st, rec, k));
      return Err(name.error);
    }
    r := ReadConnection(provider, dir, st, rec, k, name.value);
  }

  /** The records in scan order; the first failure ends the handler. */
  method ReportAll(provider: Provider, dir: Directory, st: Stamps, rs: seq<TrackerRecord>) returns (r: Outcome)
    modifies provider
    ensures Carried(provider.outcome, old(provider.calls), provider.calls, Sequence(RecordPlans(dir, st, rs)), r)
  {
    ghost var start := provider.calls;
    ghost var ps := RecordPlans(dir, st, rs);
    SequenceStart(provider.outcome, start, ps);
    var i := 0;
    while i < |rs|
      invariant 0 <= i <= |rs|
      invariant Carried(provider.outcome, start, provider.calls, Sequence(ps[..i]), Pass)
    {
      ghost var mid := provider.calls;
      var step := ReportOne(provider, dir, st, rs[i], i);
      SequenceStep(provider.outcome, start, mid, provider.calls, ps, i, step);
      if step.Err? {
        return step;
      }
      i := i + 1;
    }
    SequenceEnd(provider.outcome, start, provider.calls, ps, Pass);
    r := Pass;
  }

  /**
   * `lambda_handler`, with the services' answers `dir` and the row stamps `st`. `selected` is
   * what the scan answered, every catalogued RDS source once. The tracker table is left as it is.
   */
  method Handle(provider: Provider, table: TrackerTable, env: Env, dir: Directory, st: Stamps)
    returns (r: Outcome, ghost selected: seq<TrackerRecord>)
    requires table.Valid()
    modifies provider
    ensures Scanned(provider.outcome, old(provider.calls), env, "rds") ==> Selected(table.items, Catalogued("rds"), selected)
    ensures !Scanned(provider.outcome, old(provider.calls), env, "rds") ==> selected == []
    ensures Carried(provider.outcome, old(provider.calls), provider.calls, HandlerPlan(env, dir, st, selected), r)
  {
    ghost var before := provider.calls;
    selected := [];
    var names := Settings(env);
    if names.Err? {
      CarriedToEnd(provider.outcome, before, HandlerPlan(env, dir, st, selected));
      return Err(names.error), selected;
    }
    var scan := Scan(names.value.0, "rds");
    var scanned := Call(provider, scan);
    if scanned.Err? {
      LeadFailed(provider.outcome, before, scan, AfterScan(dir, st, selected));
      return scanned, selected;
    }
    var rs := table.Select(Catalogued("rds"));
    selected := rs;
    if rs == [] {
      CarriedToEnd(provider.outcome, provider.calls, Done);
      assert provider.calls + [] == provider.calls;
      LeadProceeded(provider.outcome, before, provider.calls, scan, Done, Pass);
      return Pass, selected;
    }
    r := ReportAll(provider, dir, st, rs);
    LeadProceeded(provider.outcome, before, provider.calls, scan, AfterScan(dir, st, rs), r);
  }
}
