/**
 * rds-glue-initial: for a new RDS cluster announced on the queue, find the cluster's secret,
 * create a Glue JDBC connection to the cluster, ask the cluster (through the RDS Data API)
 * for its schemas, and create one Glue crawler per schema on that connection.
 */
module RdsGlueInitial {
  import opened Errors
  import opened Json
  import opened Text
  import opened Validation
  import opened Aws
  import opened SqsEvent
  import opened SecretSearch
  import RdsTagReport

  const SecurityGroupVar := "CONN_SEC_GROUP_ID"
  const ExceptionSchemasVar := "CRAWLER_SCHEMAS_EXCEPTION"
  const CatalogDbVar := "CATALOG_DB_NAME"
  const CrawlerRoleVar := "CRAWLER_ROLE_ARN"
  const SslVar := "CONNECTION_SSL"
  const DefaultExceptionSchemas: seq<string> := ["pg_catalog", "information_schema"]
  const DefaultDatabase := "information_schema"
  /** BASE_SCHEMA_SQL up to its `{}`, which the excluded schemas fill; a newline follows them. */
  const SchemaSqlHead := "\nSELECT DISTINCT(table_schema) FROM information_schema.tables WHERE table_schema NOT IN "

  /** The fields the handler requires of the message body, in the order it checks them. */
  const EventFields: seq<string> := ["dBClusterIdentifier", "dBClusterArn", "endpoint", "engine", "port"]

  /** What the services answer, when they answer: Secrets Manager, `describe_db_subnet_groups`, `get_caller_identity`, `execute_statement`. */
  datatype Payloads = Payloads(secrets: SecretStore, subnetGroups: Value, identity: Value, queryAnswer: Value)

  // ---- the message body ----

  /** `_check_missing_field(d, k)` for each of `keys` in turn: the first that fails is raised. */
  function CheckFields(d: Value, keys: seq<string>): (r: Outcome)
    ensures r.Ok? <==> forall i | 0 <= i < |keys| :: CheckMissingField(d, keys[i]).Ok?
    ensures r.Err? ==> exists i | 0 <= i < |keys| ::
      r == CheckMissingField(d, keys[i]) && forall j | 0 <= j < i :: CheckMissingField(d, keys[j]).Ok?
    decreases |keys|
  {
    if keys == [] then Pass
    else if CheckMissingField(d, keys[0]).Err? then CheckMissingField(d, keys[0])
    else
      var r := CheckFields(d, keys[1..]);
      assert forall i | 1 <= i < |keys| :: keys[i] == keys[1..][i - 1];
      assert r.Err? ==> exists i | 1 <= i < |keys| ::
        r == CheckMissingField(d, keys[i]) && forall j | 0 <= j < i :: CheckMissingField(d, keys[j]).Ok?;
      r
  }

  /** The body has every field the handler reads before the secret search. */
  predicate Described(body: Value) {
    && body.Obj?
    && "dBClusterIdentifier" in body.fields && "dBClusterArn" in body.fields
    && "endpoint" in body.fields && "engine" in body.fields && "port" in body.fields
  }

  lemma EventFieldsPresent(body: Value)
    requires CheckFields(body, EventFields).Ok?
    ensures Described(body) && Truthy(body.fields["dBClusterIdentifier"])
  {
    assert CheckMissingField(body, EventFields[0]).Ok?;
    assert CheckMissingField(body, EventFields[1]).Ok?;
    assert CheckMissingField(body, EventFields[2]).Ok?;
    assert CheckMissingField(body, EventFields[3]).Ok?;
    assert CheckMissingField(body, EventFields[4]).Ok?;
  }

  /** `body.get("databaseName")`, or `information_schema` when that is falsy. */
  function DatabaseName(body: Value): (r: Value)
    requires body.Obj?
    ensures Truthy(r)
    ensures Truthy(Field(body, "databaseName")) ==> r == body.fields["databaseName"]
    ensures !Truthy(Field(body, "databaseName")) ==> r == Str(DefaultDatabase)
  {
    if Truthy(Field(body, "databaseName")) then Field(body, "databaseName") else Str(DefaultDatabase)
  }

  /**
   * The JDBC protocol: `postgresql` when `"postgres" in engine`, else `mysql`. `in` looks for a
   * substring of a string, an item of a list, a key of a dictionary; other values raise TypeError.
   */
  function Protocol(engine: Value): (r: Result<string>)
    ensures r.Ok? <==> engine.Str? || engine.Arr? || engine.Obj?
    ensures r.Ok? ==> (r.value == "postgresql" <==>
      match engine
      case Str(s) => Contains(s, "postgres")
      case Arr(items) => Str("postgres") in items
      case Obj(fields) => "postgres" in fields
      case _ => false)
    ensures r.Ok? ==> r.value == "postgresql" || r.value == "mysql"
    ensures !r.Ok? ==> r == Err(TypeError)
  {
    var isPostgres :- match engine
      case Str(s) => Ok(Contains(s, "postgres"))
      case Arr(items) => Ok(Str("postgres") in items)
      case Obj(fields) => Ok("postgres" in fields)
      case _ => Err(TypeError);
    Ok(if isPostgres then "postgresql" else "mysql")
  }

  // ---- the connection ----

  /**
   * `get_subnet_for_conn` after its call: the first subnet of the first subnet group of the
   * answer, both taken with Python's `[0]`.
   */
  function Subnet(resp: Value): (r: Result<Value>)
    ensures r.Ok? ==>
      && CheckMissingField(resp, "DBSubnetGroups").Ok? && resp.fields["DBSubnetGroups"].Arr?
      && var group := resp.fields["DBSubnetGroups"].items[0];
      && CheckMissingField(group, "Subnets").Ok? && Head(group.fields["Subnets"]) == r
    ensures CheckMissingField(resp, "DBSubnetGroups").Err? ==> r == Err(CheckMissingField(resp, "DBSubnetGroups").error)
    ensures (&& CheckMissingField(resp, "DBSubnetGroups").Ok? && resp.fields["DBSubnetGroups"].Arr?
             && CheckMissingField(resp.fields["DBSubnetGroups"].items[0], "Subnets").Ok?
             && resp.fields["DBSubnetGroups"].items[0].fields["Subnets"].Arr?) ==>
      r == Ok(resp.fields["DBSubnetGroups"].items[0].fields["Subnets"].items[0])
  {
    var _ :- CheckMissingField(resp, "DBSubnetGroups");
    var group :- Head(resp.fields["DBSubnetGroups"]);
    var _ :- CheckMissingField(group, "Subnets");
    Head(group.fields["Subnets"])
  }

  /** `subnet["SubnetAvailabilityZone"]["Name"]`. */
  function Zone(subnet: Value): (r: Result<Value>)
    ensures r.Ok? <==> && subnet.Obj? && "SubnetAvailabilityZone" in subnet.fields
                       && subnet.fields["SubnetAvailabilityZone"].Obj? && "Name" in subnet.fields["SubnetAvailabilityZone"].fields
    ensures r.Ok? ==> r.value == subnet.fields["SubnetAvailabilityZone"].fields["Name"]
  {
    var zone :- Key(subnet, "SubnetAvailabilityZone");
    Key(zone, "Name")
  }

  /** `JDBC_ENFORCE_SSL`: "false" without a CONNECTION_SSL setting or with an empty one, else the setting in lower case. */
  function Ssl(env: Env): (r: string)
    ensures forall i | 0 <= i < |r| :: !('A' <= r[i] <= 'Z')
    ensures SslVar !in env || env[SslVar] == "" ==> r == "false"
    ensures SslVar in env && env[SslVar] != "" ==> |r| == |env[SslVar]| && forall i | 0 <= i < |r| :: r[i] == LowerChar(env[SslVar][i])
  {
    if SslVar !in env || env[SslVar] == "" then "false" else Lower(env[SslVar])
  }

  /** `glue-connection-<cluster id>`. */
  function ConnectionName(cid: Value): string {
    "glue-connection-" + Render(cid)
  }

  /** `jdbc:<protocol>://<endpoint>:<port>/<database>`. */
  function JdbcUrl(protocol: string, endpoint: Value, port: Value, database: Value): string {
    "jdbc:" + protocol + "://" + Render(endpoint) + ":" + Render(port) + "/" + Render(database)
  }

  /** The `create_connection` call of `create_glue_conn`. */
  function Connection(env: Env, body: Value, protocol: string, found: Found, account: Value, zone: Value,
                      subnetId: Value, group: string): Request
    requires Described(body)
  {
    Glue(CreateConnection(account, ConnectionName(body.fields["dBClusterIdentifier"]),
      JdbcUrl(protocol, body.fields["endpoint"], body.fields["port"], DatabaseName(body)),
      found.name, Ssl(env), zone, subnetId, [group]))
  }

  /** `pat` at `i` in `t` is at `|a| + i` in `a + t + b`. */
  lemma OccursInside(a: string, t: string, b: string, pat: string, i: nat)
    requires OccursAt(t, pat, i)
    ensures OccursAt(a + t + b, pat, |a| + i)
  {
    assert (a + t + b)[|a| + i..|a| + i + |pat|] == t[i..i + |pat|];
  }

  /** The first `://` of a JDBC URL is the one after its protocol. */
  lemma SeparatorAfterProtocol(protocol: string, tail: string)
    requires protocol == "postgresql" || protocol == "mysql"
    ensures FindFirst("jdbc:" + protocol + "://" + tail, "://") == Some(|"jdbc:" + protocol|)
  {
    var lead := "jdbc:" + protocol;
    var url := lead + "://" + tail;
    OccursInside(lead, "://", tail, "://", 0);
    assert forall k | 0 <= k < |protocol| :: protocol[k] != ':';
    assert protocol[0] != '/';
    forall j: nat | j < |lead| ensures !OccursAt(url, "://", j) {
      var w := url[j..j + 3];
      assert w[0] == lead[j];
      if j < 4 {
        assert lead[j] == "jdbc"[j];
      } else if j == 4 {
        assert w[1] == lead[5] == protocol[0];
      } else {
        assert lead[j] == protocol[j - 5];
      }
    }
    var i := FindFirst(url, "://");
    assert i.Some?;
  }

  /** The first label of `<first>.<rest>` is `first`, when `first` has no `.` and no `:`. */
  lemma LabelBeforeDot(first: string, rest: string, id: string)
    requires forall j | 0 <= j < |first| :: first[j] != '.' && first[j] != ':'
    requires var t := first + "." + rest;
      && |id| <= |t| && id == t[..|id|] && (forall j | 0 <= j < |id| :: id[j] != '.')
      && (|id| == |t| || t[|id|] == '.' || OccursAt(t, "://", |id|))
    ensures id == first
  {
    var t := first + "." + rest;
    assert t[|first|] == '.';
    assert forall j | 0 <= j < |first| :: t[j] == first[j];
    assert forall j | 0 <= j < |id| :: id[j] == t[j];
    forall j | 0 <= j < |first| ensures !OccursAt(t, "://", j) {
      assert t[j] == first[j] != ':';
      assert j + 3 <= |t| ==> t[j..j + 3][0] == t[j];
    }
    assert |id| == |first|;
    assert id == t[..|first|];
  }

  /** A JDBC URL on a host `<first>.<rest>`, regrouped around its `://` and its first `.`. */
  lemma JdbcUrlParts(protocol: string, first: string, rest: string, port: Value, database: Value)
    ensures JdbcUrl(protocol, Str(first + "." + rest), port, database)
      == ("jdbc:" + protocol) + "://" + (first + "." + (rest + ":" + Render(port) + "/" + Render(database)))
  {
  }

  /**
   * The cluster id that rds-tag-report reads back from a connection this handler creates is the
   * first label of the endpoint, when the endpoint is a host name `<first>.<rest>`.
   */
  lemma JdbcUrlNamesCluster(protocol: string, first: string, rest: string, port: Value, database: Value)
    requires protocol == "postgresql" || protocol == "mysql"
    requires forall j | 0 <= j < |first| :: first[j] != '.' && first[j] != ':'
    ensures RdsTagReport.ClusterId(Str(JdbcUrl(protocol, Str(first + "." + rest), port, database))) == Ok(first)
  {
    var url := JdbcUrl(protocol, Str(first + "." + rest), port, database);
    var lead := "jdbc:" + protocol;
    var more := rest + ":" + Render(port) + "/" + Render(database);
    JdbcUrlParts(protocol, first, rest, port, database);
    SeparatorAfterProtocol(protocol, first + "." + more);
    assert Contains(url, "://");
    RdsTagReport.ClusterIdShape(Str(url));
    assert url[|lead| + 3..] == first + "." + more;
    LabelBeforeDot(first, more, RdsTagReport.ClusterId(Str(url)).value);
  }

  // ---- the schema query ----

  /** `exc_schemas`: the default schemas, then each comma-separated piece of a CRAWLER_SCHEMAS_EXCEPTION setting, even an empty one. */
  function ExclusionSchemas(env: Env): (xs: seq<string>)
    ensures |xs| >= 2 && xs[..2] == DefaultExceptionSchemas
    ensures ExceptionSchemasVar !in env ==> xs == DefaultExceptionSchemas
  {
    DefaultExceptionSchemas + if ExceptionSchemasVar in env then Split(env[ExceptionSchemasVar], ",") else []
  }

  /** The setting can be read back from the schemas the handler added: they are its comma-separated pieces. */
  lemma ExclusionsRoundTrip(env: Env)
    requires ExceptionSchemasVar in env
    ensures Join(ExclusionSchemas(env)[2..], ",") == env[ExceptionSchemasVar]
  {
    assert ExclusionSchemas(env)[2..] == Split(env[ExceptionSchemasVar], ",");
    SplitJoin(env[ExceptionSchemasVar], ",");
  }

  /** The loop that builds `exc_schemas`. */
  method CollectExclusions(env: Env) returns (xs: seq<string>)
    ensures xs == ExclusionSchemas(env)
  {
    xs := DefaultExceptionSchemas;
    if ExceptionSchemasVar in env {
      var pieces := Split(env[ExceptionSchemasVar], ",");
      var i := 0;
      while i < |pieces|
        invariant 0 <= i <= |pieces|
        invariant xs == DefaultExceptionSchemas + pieces[..i]
      {
        xs := xs + [pieces[i]];
        i := i + 1;
      }
      assert pieces[..i] == pieces;
    }
  }

  /** Each schema name between single quotes, as `repr` writes a name without quotes or backslashes in it. */
  function Quoted(xs: seq<string>): (qs: seq<string>)
    ensures |qs| == |xs|
    ensures forall i | 0 <= i < |xs| :: qs[i] == "'" + xs[i] + "'"
  {
    seq(|xs|, i requires 0 <= i < |xs| => "'" + xs[i] + "'")
  }

  /** `str(tuple(xs))` for two or more names: `('a', 'b', ...)`. */
  function TupleText(xs: seq<string>): string
    requires |xs| >= 2
  {
    "(" + Join(Quoted(xs), ", ") + ")"
  }

  /** `BASE_SCHEMA_SQL.format(tuple(exc_schemas))`. */
  function SchemaQuery(xs: seq<string>): string
    requires |xs| >= 2
  {
    SchemaSqlHead + TupleText(xs) + "\n"
  }

  /** Every piece of a join occurs in it. */
  lemma {:induction false} JoinContains(pieces: seq<string>, sep: string, i: nat)
    requires i < |pieces|
    ensures exists k: nat | k <= |Join(pieces, sep)| :: OccursAt(Join(pieces, sep), pieces[i], k)
    decreases |pieces|
  {
    var j := Join(pieces, sep);
    if |pieces| == 1 {
      OccursInside([], pieces[0], [], pieces[0], 0);
      assert [] + pieces[0] + [] == j;
    } else if i == 0 {
      OccursInside([], pieces[0], sep + Join(pieces[1..], sep), pieces[0], 0);
      assert [] + pieces[0] + (sep + Join(pieces[1..], sep)) == j;
    } else {
      JoinContains(pieces[1..], sep, i - 1);
      var rest := Join(pieces[1..], sep);
      var k: nat :| k <= |rest| && OccursAt(rest, pieces[1..][i - 1], k);
      OccursInside(pieces[0] + sep, rest, [], pieces[i], k);
      assert pieces[0] + sep + rest + [] == j;
    }
  }

  /** Each name is in the tuple text, quoted, wherever the text is put. */
  lemma TupleHasQuoted(lead: string, xs: seq<string>, i: nat)
    requires |xs| >= 2 && i < |xs|
    ensures Contains(lead + TupleText(xs) + "\n", "'" + xs[i] + "'")
  {
    var qs := Quoted(xs);
    JoinContains(qs, ", ", i);
    var k: nat :| k <= |Join(qs, ", ")| && OccursAt(Join(qs, ", "), qs[i], k);
    OccursInside(lead + "(", Join(qs, ", "), ")\n", qs[i], k);
    var text := lead + TupleText(xs) + "\n";
    assert lead + "(" + Join(qs, ", ") + ")\n" == text;
    assert OccursAt(text, qs[i], |lead| + 1 + k);
  }

  /** The query leaves out every excluded schema: each appears, quoted, in its NOT IN list. */
  lemma QueryExcludes(xs: seq<string>, i: nat)
    requires |xs| >= 2 && i < |xs|
    ensures Contains(SchemaQuery(xs), "'" + xs[i] + "'")
  {
    TupleHasQuoted(SchemaSqlHead, xs, i);
  }

  // ---- the schemas of the answer ----

  /**
   * The records the loop goes through, from `sql_resp.get("records", [])`: the items of a list,
   * none when the key is absent, the one-character strings of a string. Iterating a dictionary
   * goes through its keys: a non-empty key raises TypeError at its turn, the empty key is
   * skipped (IndexError), so only whether such a key exists matters, not the keys' order.
   */
  function Records(answer: Value): (r: Result<seq<Value>>)
    ensures r.Ok? ==> answer.Obj?
    ensures answer.Obj? && "records" !in answer.fields ==> r == Ok([])
    ensures answer.Obj? && "records" in answer.fields && answer.fields["records"].Arr? ==> r == Ok(answer.fields["records"].items)
  {
    var recs :- Get(answer, "records");
    if "records" !in answer.fields then Ok([])
    else
      match recs
      case Arr(items) => Ok(items)
      case Str(s) => Ok(seq(|s|, i requires 0 <= i < |s| => Str([s[i]])))
      case Obj(fields) =>
        if exists k | k in fields :: k != "" then Err(TypeError)
        else if "" in fields then Ok([Str("")]) else Ok([])
      case _ => Err(TypeError)
  }

  /** A proper row of the answer: a non-empty list whose first cell is a dictionary with a `stringValue`. */
  predicate ProperRow(rec: Value) {
    rec.Arr? && rec.items != [] && rec.items[0].Obj? && "stringValue" in rec.items[0].fields
  }

  /**
   * `rec[0]["stringValue"]` with its IndexError and KeyError caught: the schema of a row, None
   * for a row that is skipped; any other error (TypeError) is raised.
   */
  function Cell(rec: Value): (r: Result<Option<Value>>)
    ensures ProperRow(rec) ==> r == Ok(Some(rec.items[0].fields["stringValue"]))
    ensures r.Ok? && r.value.Some? ==> ProperRow(rec)
    ensures (rec.Arr? && rec.items == []) || rec == Str("") || rec.Obj? ==> r == Ok(None)
    ensures rec.Arr? && rec.items != [] && rec.items[0].Obj? && "stringValue" !in rec.items[0].fields ==> r == Ok(None)
  {
    match Head(rec)
    case Err(e) => if e == IndexError || e.KeyError? then Ok(None) else Err(e)
    case Ok(first) =>
      match Key(first, "stringValue")
      case Ok(v) => Ok(Some(v))
      case Err(e) => if e.KeyError? then Ok(None) else Err(e)
  }

  /** `crawler_schemas`: the schemas of the rows in order, skipping the rows Cell skips; the first raised error ends the loop. */
  function Schemas(recs: seq<Value>): (r: Result<seq<Value>>)
    ensures r.Ok? ==> |r.value| <= |recs|
    decreases |recs|
  {
    if recs == [] then Ok([])
    else
      var earlier :- Schemas(recs[..|recs| - 1]);
      var cell :- Cell(recs[|recs| - 1]);
      Ok(earlier + if cell.Some? then [cell.value] else [])
  }

  /** The loop collects the schemas exactly when no record raises. */
  lemma {:induction false} SchemasFail(recs: seq<Value>)
    ensures Schemas(recs).Ok? <==> forall i | 0 <= i < |recs| :: Cell(recs[i]).Ok?
    decreases |recs|
  {
    if recs != [] {
      var init := recs[..|recs| - 1];
      SchemasFail(init);
      assert forall i | 0 <= i < |init| :: init[i] == recs[i];
    }
  }

  /** Every schema collected is the `stringValue` of a proper row. */
  lemma {:induction false} SchemasFromRows(recs: seq<Value>)
    requires Schemas(recs).Ok?
    ensures forall s | s in Schemas(recs).value :: exists i | 0 <= i < |recs| :: ProperRow(recs[i]) && s == recs[i].items[0].fields["stringValue"]
    decreases |recs|
  {
    if recs != [] {
      var n := |recs|;
      var init := recs[..n - 1];
      SchemasFromRows(init);
      assert forall i | 0 <= i < |init| :: init[i] == recs[i];
      forall s | s in Schemas(recs).value
        ensures exists i | 0 <= i < n :: ProperRow(recs[i]) && s == recs[i].items[0].fields["stringValue"]
      {
        if s !in Schemas(init).value {
          assert ProperRow(recs[n - 1]);
        }
      }
    }
  }

  /** When every row is proper, the loop collects the schema of each, in order. */
  lemma {:induction false} ProperRowsAllKept(recs: seq<Value>)
    requires forall i | 0 <= i < |recs| :: ProperRow(recs[i])
    ensures Schemas(recs).Ok? && |Schemas(recs).value| == |recs|
    ensures forall i | 0 <= i < |recs| && ProperRow(recs[i]) :: Schemas(recs).value[i] == recs[i].items[0].fields["stringValue"]
    decreases |recs|
  {
    if recs != [] {
      var n := |recs|;
      var init := recs[..n - 1];
      assert forall i | 0 <= i < |init| :: init[i] == recs[i];
      ProperRowsAllKept(init);
      assert Schemas(recs).value == Schemas(init).value + [recs[n - 1].items[0].fields["stringValue"]];
    }
  }

  /** One record more of the loop. */
  lemma SchemasStep(recs: seq<Value>, i: nat)
    requires i < |recs| && Schemas(recs[..i]).Ok? && Cell(recs[i]).Ok?
    ensures Schemas(recs[..i + 1]) ==
      Ok(Schemas(recs[..i]).value + if Cell(recs[i]).value.Some? then [Cell(recs[i]).value.value] else [])
  {
    assert recs[..i + 1][..i] == recs[..i];
  }

  /** The loop over the records. */
  method CollectSchemas(recs: seq<Value>) returns (r: Result<seq<Value>>)
    ensures r == Schemas(recs)
  {
    var schemas := [];
    var i := 0;
    assert recs[..0] == [];
    while i < |recs|
      invariant 0 <= i <= |recs|
      invariant Schemas(recs[..i]) == Ok(schemas)
    {
      var cell := Cell(recs[i]);
      if cell.Err? {
        SchemasStop(recs, i + 1);
        return Err(cell.error);
      }
      SchemasStep(recs, i);
      if cell.value.Some? {
        schemas := schemas + [cell.value.value];
      } else {
        assert schemas + [] == schemas;
      }
      i := i + 1;
    }
    assert recs[..i] == recs;
    r := Ok(schemas);
  }

  /** A record of the first `k` that raises ends the loop with its error. */
  lemma {:induction false} SchemasStop(recs: seq<Value>, k: nat)
    requires 0 < k <= |recs| && Schemas(recs[..k - 1]).Ok? && Cell(recs[k - 1]).Err?
    ensures Schemas(recs) == Err(Cell(recs[k - 1]).error)
    decreases |recs| - k
  {
    assert recs[..k][..k - 1] == recs[..k - 1];
    if k == |recs| {
      assert recs[..k] == recs;
    } else {
      SchemasStopped(recs, k);
    }
  }

  lemma {:induction false} SchemasStopped(recs: seq<Value>, k: nat)
    requires 0 < k <= |recs| && Schemas(recs[..k]).Err?
    ensures Schemas(recs) == Schemas(recs[..k])
    decreases |recs| - k
  {
    if k == |recs| {
      assert recs[..k] == recs;
    } else {
      assert recs[..k + 1][..k] == recs[..k];
      SchemasStopped(recs, k + 1);
    }
  }

  // ---- the crawlers ----

  /** `glue-crawler-<cluster id>-<schema>`. */
  function CrawlerName(cid: Value, schema: Value): string {
    "glue-crawler-" + Render(cid) + "-" + Render(schema)
  }

  /** The `create_crawler` call for one schema: on the handler's connection, over the schema's tables. */
  function CrawlerRequest(cid: Value, role: string, database: string, schema: Value): Request {
    Glue(CreateCrawler(CrawlerName(cid, schema), role, database, JdbcTarget(ConnectionName(cid), "postgres/" + Render(schema) + "/%")))
  }

  function CrawlerRequests(cid: Value, role: string, database: string, schemas: seq<Value>): (cs: seq<Request>)
    ensures |cs| == |schemas|
    ensures forall i | 0 <= i < |cs| :: cs[i] == CrawlerRequest(cid, role, database, schemas[i])
  {
    seq(|schemas|, i requires 0 <= i < |schemas| => CrawlerRequest(cid, role, database, schemas[i]))
  }

  /** Two different schema names give two different crawler names. */
  lemma CrawlerNamesDistinct(cid: Value, a: Value, b: Value)
    requires a.Str? && b.Str? && a != b
    ensures CrawlerName(cid, a) != CrawlerName(cid, b)
  {
    var lead := "glue-crawler-" + Render(cid) + "-";
    assert CrawlerName(cid, a)[|lead|..] == a.s;
    assert CrawlerName(cid, b)[|lead|..] == b.s;
  }

  /** The loop over the schemas: one `create_crawler` each, every answer status-checked. */
  method CreateCrawlers(provider: Provider, cid: Value, role: string, database: string, schemas: seq<Value>)
    returns (r: Outcome)
    modifies provider
    ensures Carried(provider.outcome, old(provider.calls), provider.calls, Calls(CrawlerRequests(cid, role, database, schemas)), r)
  {
    ghost var start := provider.calls;
    var cs := CrawlerRequests(cid, role, database, schemas);
    var i := 0;
    assert cs[..0] == [];
    while i < |cs|
      invariant 0 <= i <= |cs|
      invariant provider.calls == start + cs[..i]
      invariant AllProceed(provider.outcome, |start|, cs[..i])
    {
      var c := cs[i];
      assert cs[..i + 1] == cs[..i] + [c];
      r := Call(provider, c);
      if r.Err? {
        CarriedToFailure(provider.outcome, start, cs[..i], c, Calls(cs));
        return;
      }
      AllProceedSnoc(provider.outcome, |start|, cs[..i], c);
      i := i + 1;
    }
    assert cs[..i] == cs;
    CarriedToEnd(provider.outcome, start, Calls(cs));
    r := Pass;
  }

  // ---- the handler ----

  /** What follows the schema query: the schemas of its answer, the two crawler settings, and one crawler per schema. */
  function AfterQuery(env: Env, body: Value, pl: Payloads): Plan
    requires Described(body)
  {
    match Records(pl.queryAnswer)
    case Err(e) => Raise(e)
    case Ok(recs) =>
      match Schemas(recs)
      case Err(e) => Raise(e)
      case Ok(schemas) =>
        match Required(env, CatalogDbVar)
        case Err(e) => Raise(e)
        case Ok(db) =>
          match Required(env, CrawlerRoleVar)
          case Err(e) => Raise(e)
          case Ok(role) => Calls(CrawlerRequests(body.fields["dBClusterIdentifier"], role, db, schemas))
  }

  /** The `execute_statement` that asks the cluster for its schemas, with the secret the search found. */
  function SchemaRequest(env: Env, body: Value, found: Found): Request
    requires Described(body)
  {
    ExecuteSql(body.fields["dBClusterArn"], found.arn, DatabaseName(body), SchemaQuery(ExclusionSchemas(env)))
  }

  function AfterConnection(env: Env, body: Value, pl: Payloads, found: Found): Plan
    requires Described(body)
  {
    Then(Calls([SchemaRequest(env, body, found)]), AfterQuery(env, body, pl))
  }

  /** What follows `get_caller_identity`: its Account, the subnet's zone, and the connection. */
  function AfterIdentity(env: Env, body: Value, pl: Payloads, protocol: string, found: Found, group: string,
                         subnet: Value, subnetId: Value): Plan
    requires Described(body)
  {
    match Key(pl.identity, "Account")
    case Err(e) => Raise(e)
    case Ok(account) =>
      match Zone(subnet)
      case Err(e) => Raise(e)
      case Ok(zone) =>
        Then(Calls([Connection(env, body, protocol, found, account, zone, subnetId, group)]), AfterConnection(env, body, pl, found))
  }

  /** What follows `describe_db_subnet_groups`: the subnet, its identifier, and the identity call. */
  function AfterSubnets(env: Env, body: Value, pl: Payloads, protocol: string, found: Found, group: string): Plan
    requires Described(body)
  {
    match Subnet(pl.subnetGroups)
    case Err(e) => Raise(e)
    case Ok(subnet) =>
      match Key(subnet, "SubnetIdentifier")
      case Err(e) => Raise(e)
      case Ok(subnetId) =>
        Then(Calls([GetCallerIdentity]), AfterIdentity(env, body, pl, protocol, found, group, subnet, subnetId))
  }

  /** What follows the secret search: no ARN ends the handler quietly; otherwise the security group, the subnet group, and the rest. */
  function AfterSecret(env: Env, body: Value, pl: Payloads, protocol: string, found: Found): Plan
    requires Described(body)
  {
    if !Truthy(found.arn) then Done
    else
      match Required(env, SecurityGroupVar)
      case Err(e) => Raise(e)
      case Ok(group) =>
        match CheckMissingField(body, "dBSubnetGroup")
        case Err(e) => Raise(e)
        case Ok(_) =>
          Then(Calls([Rds(DescribeDbSubnetGroups(body.fields["dBSubnetGroup"]))]), AfterSubnets(env, body, pl, protocol, found, group))
  }

  /** The handler after its prologue, on the message body: its fields, the protocol, the secret search, and the rest. */
  function AfterBody(env: Env, body: Value, pl: Payloads, decode: string -> Option<Value>): Plan {
    match CheckFields(body, EventFields)
    case Err(e) => Raise(e)
    case Ok(_) =>
      EventFieldsPresent(body);
      match Protocol(body.fields["engine"])
      case Err(e) => Raise(e)
      case Ok(protocol) =>
        var cid := body.fields["dBClusterIdentifier"];
        Then(FetchAllPlan(pl.secrets, decode, cid), AfterSecret(env, body, pl, protocol, FetchedAll(pl.secrets, decode, cid)))
  }

  function AfterReceive(env: Env, body: Result<Value>, pl: Payloads, decode: string -> Option<Value>): Plan {
    match body
    case Err(e) => Raise(e)
    case Ok(b) => AfterBody(env, b, pl, decode)
  }

  /** What `lambda_handler` does when every call goes through; `decode` is `json.loads`. */
  function HandlerPlan(env: Env, event: Value, decode: string -> Option<Value>, pl: Payloads): Plan {
    Then(ReceivePlan(env, event), AfterReceive(env, MessageBody(event, decode), pl, decode))
  }

  /** A missing event field, or an engine `in` cannot search, raises before any call past the prologue. */
  lemma BodyChecksFirst(env: Env, body: Value, pl: Payloads, decode: string -> Option<Value>)
    ensures CheckFields(body, EventFields).Err? ==> AfterBody(env, body, pl, decode) == Raise(CheckFields(body, EventFields).error)
    ensures (CheckFields(body, EventFields).Ok? && Described(body) && Protocol(body.fields["engine"]).Err?) ==>
      AfterBody(env, body, pl, decode) == Raise(TypeError)
  {
  }

  /**
   * When the search finds no ARN for the cluster, the handler ends after the search without
   * raising, and has called nothing but Secrets Manager.
   */
  lemma NoSecretNoResources(env: Env, body: Value, pl: Payloads, decode: string -> Option<Value>)
    requires CheckFields(body, EventFields).Ok? && Described(body) && Protocol(body.fields["engine"]).Ok?
    requires FetchAllPlan(pl.secrets, decode, body.fields["dBClusterIdentifier"]).fault.None?
    requires !Truthy(FetchedAll(pl.secrets, decode, body.fields["dBClusterIdentifier"]).arn)
    ensures var p := AfterBody(env, body, pl, decode);
      && p.fault.None?
      && p.calls == [Secrets(ListSecrets)] + ReadsOf(Listed(pl.secrets.listing).value)
  {
    var cid := body.fields["dBClusterIdentifier"];
    var f := FetchAllPlan(pl.secrets, decode, cid);
    FetchedAllCalls(pl.secrets, decode, cid);
    assert f.calls + [] == f.calls;
  }

  /** The answers and settings under which the handler gets past the search to the end. */
  predicate Completes(env: Env, body: Value, pl: Payloads) {
    && Required(env, SecurityGroupVar).Ok? && CheckMissingField(body, "dBSubnetGroup").Ok?
    && Subnet(pl.subnetGroups).Ok? && Key(Subnet(pl.subnetGroups).value, "SubnetIdentifier").Ok?
    && Key(pl.identity, "Account").Ok? && Zone(Subnet(pl.subnetGroups).value).Ok?
    && Records(pl.queryAnswer).Ok? && Schemas(Records(pl.queryAnswer).value).Ok?
    && Required(env, CatalogDbVar).Ok? && Required(env, CrawlerRoleVar).Ok?
  }

  /**
   * With a secret found, and every setting and answer well-formed, the handler makes after the
   * search exactly: the subnet-group lookup, the identity call, one connection named after the
   * cluster whose SECRET_ID is the Name the search returned, the schema query run with the ARN
   * it returned, and one crawler per schema on that connection.
   */
  lemma CreatesConnectionAndCrawlers(env: Env, body: Value, pl: Payloads, protocol: string, found: Found)
    requires Described(body) && Truthy(found.arn) && Completes(env, body, pl)
    ensures var p := AfterSecret(env, body, pl, protocol, found);
      var cid := body.fields["dBClusterIdentifier"];
      var schemas := Schemas(Records(pl.queryAnswer).value).value;
      var subnet := Subnet(pl.subnetGroups).value;
      && p.fault.None? && |p.calls| == 4 + |schemas|
      && p.calls[0] == Rds(DescribeDbSubnetGroups(body.fields["dBSubnetGroup"]))
      && p.calls[1] == GetCallerIdentity
      && p.calls[2] == Glue(CreateConnection(pl.identity.fields["Account"], ConnectionName(cid),
           JdbcUrl(protocol, body.fields["endpoint"], body.fields["port"], DatabaseName(body)), found.name, Ssl(env),
           subnet.fields["SubnetAvailabilityZone"].fields["Name"], subnet.fields["SubnetIdentifier"], [env[SecurityGroupVar]]))
      && p.calls[3] == SchemaRequest(env, body, found)
      && forall i | 0 <= i < |schemas| :: p.calls[4 + i] == CrawlerRequest(cid, env[CrawlerRoleVar], env[CatalogDbVar], schemas[i])
  {
    var subnet := Subnet(pl.subnetGroups).value;
    var conn := Connection(env, body, protocol, found, pl.identity.fields["Account"],
      subnet.fields["SubnetAvailabilityZone"].fields["Name"], subnet.fields["SubnetIdentifier"], env[SecurityGroupVar]);
    var crawlers := AfterQuery(env, body, pl);
    var schemas := Schemas(Records(pl.queryAnswer).value).value;
    assert crawlers == Calls(CrawlerRequests(body.fields["dBClusterIdentifier"], env[CrawlerRoleVar], env[CatalogDbVar], schemas));
    var afterIdentity := AfterIdentity(env, body, pl, protocol, found, env[SecurityGroupVar], subnet, subnet.fields["SubnetIdentifier"]);
    assert afterIdentity.calls == [conn] + ([SchemaRequest(env, body, found)] + crawlers.calls);
    var p := AfterSecret(env, body, pl, protocol, found);
    assert p.calls == [Rds(DescribeDbSubnetGroups(body.fields["dBSubnetGroup"]))] + ([GetCallerIdentity] + afterIdentity.calls);
  }

  /** The crawler part, carried out. */
  method RunQuery(provider: Provider, env: Env, body: Value, pl: Payloads) returns (r: Outcome)
    requires Described(body)
    modifies provider
    ensures Carried(provider.outcome, old(provider.calls), provider.calls, AfterQuery(env, body, pl), r)
  {
    ghost var before := provider.calls;
    ghost var p := AfterQuery(env, body, pl);
    var recs := Records(pl.queryAnswer);
    if recs.Err? {
      CarriedToEnd(provider.outcome, before, p);
      return Err(recs.error);
    }
    var schemas := CollectSchemas(recs.value);
    if schemas.Err? {
      CarriedToEnd(provider.outcome, before, p);
      return Err(schemas.error);
    }
    var db := Required(env, CatalogDbVar);
    if db.Err? {
      CarriedToEnd(provider.outcome, before, p);
      return Err(db.error);
    }
    var role := Required(env, CrawlerRoleVar);
    if role.Err? {
      CarriedToEnd(provider.outcome, before, p);
      return Err(role.error);
    }
    r := CreateCrawlers(provider, body.fields["dBClusterIdentifier"], role.value, db.value, schemas.value);
  }

  /** The schema query and what follows it, carried out. */
  method RunConnection(provider: Provider, env: Env, body: Value, pl: Payloads, found: Found) returns (r: Outcome)
    requires Described(body)
    modifies provider
    ensures Carried(provider.outcome, old(provider.calls), provider.calls, AfterConnection(env, body, pl, found), r)
  {
    ghost var before := provider.calls;
    var xs := CollectExclusions(env);
    var c := ExecuteSql(body.fields["dBClusterArn"], found.arn, DatabaseName(body), SchemaQuery(xs));
    ghost var q := AfterQuery(env, body, pl);
    r := Call(provider, c);
    if r.Err? {
      LeadFailed(provider.outcome, before, c, q);
      return;
    }
    r := RunQuery(provider, env, body, pl);
    LeadProceeded(provider.outcome, before, provider.calls, c, q, r);
  }

  /** The connection and what follows it, carried out. */
  method RunIdentity(provider: Provider, env: Env, body: Value, pl: Payloads, protocol: string, found: Found, group: string,
                     subnet: Value, subnetId: Value) returns (r: Outcome)
    requires Described(body)
    modifies provider
    ensures Carried(provider.outcome, old(provider.calls), provider.calls,
      AfterIdentity(env, body, pl, protocol, found, group, subnet, subnetId), r)
  {
    ghost var before := provider.calls;
    ghost var p := AfterIdentity(env, body, pl, protocol, found, group, subnet, subnetId);
    var account := Key(pl.identity, "Account");
    if account.Err? {
      CarriedToEnd(provider.outcome, before, p);
      return Err(account.error);
    }
    var zone := Zone(subnet);
    if zone.Err? {
      CarriedToEnd(provider.outcome, before, p);
      return Err(zone.error);
    }
    var c := Connection(env, body, protocol, found, account.value, zone.value, subnetId, group);
    ghost var q := AfterConnection(env, body, pl, found);
    r := Call(provider, c);
    if r.Err? {
      LeadFailed(provider.outcome, before, c, q);
      return;
    }
    r := RunConnection(provider, env, body, pl, found);
    LeadProceeded(provider.outcome, before, provider.calls, c, q, r);
  }

  /** `get_subnet_for_conn`'s answer onwards, carried out. */
  method RunSubnets(provider: Provider, env: Env, body: Value, pl: Payloads, protocol: string, found: Found, group: string)
    returns (r: Outcome)
    requires Described(body)
    modifies provider
    ensures Carried(provider.outcome, old(provider.calls), provider.calls, AfterSubnets(env, body, pl, protocol, found, group), r)
  {
    ghost var before := provider.calls;
    ghost var p := AfterSubnets(env, body, pl, protocol, found, group);
    var subnet := Subnet(pl.subnetGroups);
    if subnet.Err? {
      CarriedToEnd(provider.outcome, before, p);
      return Err(subnet.error);
    }
    var subnetId := Key(subnet.value, "SubnetIdentifier");
    if subnetId.Err? {
      CarriedToEnd(provider.outcome, before, p);
      return Err(subnetId.error);
    }
    ghost var q := AfterIdentity(env, body, pl, protocol, found, group, subnet.value, subnetId.value);
    r := Call(provider, GetCallerIdentity);
    if r.Err? {
      LeadFailed(provider.outcome, before, GetCallerIdentity, q);
      return;
    }
    r := RunIdentity(provider, env, body, pl, protocol, found, group, subnet.value, subnetId.value);
    LeadProceeded(provider.outcome, before, provider.calls, GetCallerIdentity, q, r);
  }

  /** Everything after the secret search, carried out. */
  method RunAfterSecret(provider: Provider, env: Env, body: Value, pl: Payloads, protocol: string, found: Found)
    returns (r: Outcome)
    requires Described(body)
    modifies provider
    ensures Carried(provider.outcome, old(provider.calls), provider.calls, AfterSecret(env, body, pl, protocol, found), r)
  {
    ghost var before := provider.calls;
    ghost var p := AfterSecret(env, body, pl, protocol, found);
    if !Truthy(found.arn) {
      CarriedToEnd(provider.outcome, before, p);
      assert before + [] == before;
      return Pass;
    }
    var group := Required(env, SecurityGroupVar);
    if group.Err? {
      CarriedToEnd(provider.outcome, before, p);
      return Err(group.error);
    }
    var hasGroup := CheckMissingField(body, "dBSubnetGroup");
    if hasGroup.Err? {
      CarriedToEnd(provider.outcome, before, p);
      return Err(hasGroup.error);
    }
    var c := Rds(DescribeDbSubnetGroups(body.fields["dBSubnetGroup"]));
    ghost var q := AfterSubnets(env, body, pl, protocol, found, group.value);
    r := Call(provider, c);
    if r.Err? {
      LeadFailed(provider.outcome, before, c, q);
      return;
    }
    r := RunSubnets(provider, env, body, pl, protocol, found, group.value);
    LeadProceeded(provider.outcome, before, provider.calls, c, q, r);
  }

  /** The handler after the prologue, carried out on the message body. */
  method HandleBody(provider: Provider, env: Env, body: Value, pl: Payloads, decode: string -> Option<Value>)
    returns (r: Outcome)
    modifies provider
    ensures Carried(provider.outcome, old(provider.calls), provider.calls, AfterBody(env, body, pl, decode), r)
  {
    ghost var before := provider.calls;
    ghost var p := AfterBody(env, body, pl, decode);
    var fields := CheckFields(body, EventFields);
    if fields.Err? {
      CarriedToEnd(provider.outcome, before, p);
      return Err(fields.error);
    }
    EventFieldsPresent(body);
    var protocol := Protocol(body.fields["engine"]);
    if protocol.Err? {
      CarriedToEnd(provider.outcome, before, p);
      return Err(protocol.error);
    }
    var cid := body.fields["dBClusterIdentifier"];
    ghost var q := AfterSecret(env, body, pl, protocol.value, FetchedAll(pl.secrets, decode, cid));
    var searched, found := FetchAll(provider, pl.secrets, decode, cid);
    if searched.Err? {
      CarriedStopped(provider.outcome, before, provider.calls, FetchAllPlan(pl.secrets, decode, cid), searched, q);
      return searched;
    }
    ghost var mid := provider.calls;
    r := RunAfterSecret(provider, env, body, pl, protocol.value, found);
    CarriedThen(provider.outcome, before, mid, provider.calls, FetchAllPlan(pl.secrets, decode, cid), searched, q, r);
  }

  /** `lambda_handler`: the queue prologue, then the body's part. */
  method Handle(provider: Provider, env: Env, event: Value, decode: string -> Option<Value>, pl: Payloads)
    returns (r: Outcome)
    modifies provider
    ensures Carried(provider.outcome, old(provider.calls), provider.calls, HandlerPlan(env, event, decode, pl), r)
  {
    ghost var before := provider.calls;
    var body := Receive(provider, env, event, decode);
    ghost var mid := provider.calls;
    if body.Err? {
      ReceivedNothing(provider.outcome, before, mid, env, event, decode, AfterReceive(env, MessageBody(event, decode), pl, decode));
      return Err(body.error);
    }
    r := HandleBody(provider, env, body.value, pl, decode);
    ReceivedThen(provider.outcome, before, mid, provider.calls, env, event, decode,
      AfterReceive(env, MessageBody(event, decode), pl, decode), r);
  }
}
