/**
 * lambda/ddb-tag-report: for every catalogued DynamoDB source, the table's tags are listed and,
 * when a required tag is among them, one row is written to `tagCaptureTable`. The tracker table
 * is only scanned.
 */
module DdbTagReport {
  import opened Errors
  import opened Json
  import opened Validation
  import opened TrackerRecords
  import opened Aws
  import opened Tracker
  import opened TagReport

  /** The Tags an accepted `list_tags_of_resource` answers for a table ARN; [] when it has none. */
  type TableTags = Value -> seq<Tag>

  /**
   * `obj["data_source_attrs"]["tableDescription"]["tableName"]`, read for the log, then
   * `["tableArn"]`: the ARN, or the error of the first subscript that fails.
   */
  function TableArn(rec: TrackerRecord): (r: Result<Value>)
    ensures r.Ok? <==>
      && rec.dataSourceAttrs.Obj? && "tableDescription" in rec.dataSourceAttrs.fields
      && (var d := rec.dataSourceAttrs.fields["tableDescription"];
          d.Obj? && "tableName" in d.fields && "tableArn" in d.fields)
    ensures r.Ok? ==> r.value == rec.dataSourceAttrs.fields["tableDescription"].fields["tableArn"]
    ensures rec.dataSourceAttrs.Obj? && "tableDescription" !in rec.dataSourceAttrs.fields ==> r == Err(KeyError("tableDescription"))
    ensures rec.dataSourceAttrs.Obj? && "tableDescription" in rec.dataSourceAttrs.fields ==>
      var d := rec.dataSourceAttrs.fields["tableDescription"];
      d.Obj? && "tableName" !in d.fields ==> r == Err(KeyError("tableName"))
  {
    var d :- Key(rec.dataSourceAttrs, "tableDescription");
    var _ :- Key(d, "tableName");
    Key(d, "tableArn")
  }

  function Lookup(arn: Value): Request {
    Dynamo(ListTagsOfResource(arn))
  }

  /** The turn of the k-th record: its table ARN, the tag listing, then its report. */
  function RecordPlan(tagsOf: TableTags, st: Stamps, rec: TrackerRecord, k: nat): Plan {
    match TableArn(rec)
    case Err(e) => Raise(e)
    case Ok(arn) => Then(Calls([Lookup(arn)]), Report(TagCaptureTable, tagsOf(arn), rec, st.ids(k), st.times(k)))
  }

  function RecordPlans(tagsOf: TableTags, st: Stamps, rs: seq<TrackerRecord>): (ps: seq<Plan>)
    ensures |ps| == |rs|
    ensures forall i | 0 <= i < |rs| :: ps[i] == RecordPlan(tagsOf, st, rs[i], i)
  {
    seq(|rs|, i requires 0 <= i < |rs| => RecordPlan(tagsOf, st, rs[i], i))
  }

  /**
   * A record's turn lists its table's tags first and writes at most one row after; it writes one
   * exactly when the table is tagged, the catalog table name is recorded and some tag is required.
   */
  lemma RecordWritesRow(tagsOf: TableTags, st: Stamps, rec: TrackerRecord, k: nat)
    requires TableArn(rec).Ok?
    ensures var p := RecordPlan(tagsOf, st, rec, k);
      var arn := TableArn(rec).value;
      var tags := tagsOf(arn);
      && 1 <= |p.calls| <= 2 && p.calls[0] == Lookup(arn)
      && (|p.calls| == 2 <==> tags != [] && rec.catalogTableName.Some? && exists i | 0 <= i < |tags| :: tags[i].key in RequiredTagKeys)
      && (|p.calls| == 2 ==> p.calls[1] == Dynamo(PutReportRow(TagCaptureTable, Row(Filtered(tags), st.ids(k), rec.catalogTableName.value, st.times(k)))))
  {
    var arn := TableArn(rec).value;
    ReportRow(TagCaptureTable, tagsOf(arn), rec, st.ids(k), st.times(k));
  }

  /** A record's calls are its tag listing and rows of `tagCaptureTable`. */
  lemma RecordCalls(tagsOf: TableTags, st: Stamps, rec: TrackerRecord, k: nat)
    ensures forall c | c in RecordPlan(tagsOf, st, rec, k).calls ::
      (c.Dynamo? && c.dynamo.ListTagsOfResource?) || (c.Dynamo? && c.dynamo.PutReportRow? && c.dynamo.table == TagCaptureTable)
  {
    if TableArn(rec).Ok? {
      ReportRow(TagCaptureTable, tagsOf(TableArn(rec).value), rec, st.ids(k), st.times(k));
    }
  }

  /** What follows an accepted scan that answered `selected`. */
  function AfterScan(tagsOf: TableTags, st: Stamps, selected: seq<TrackerRecord>): Plan {
    if selected == [] then Done else Sequence(RecordPlans(tagsOf, st, selected))
  }

  /** What `lambda_handler` does when every call goes through and its scan answers `selected`. */
  function HandlerPlan(env: Env, tagsOf: TableTags, st: Stamps, selected: seq<TrackerRecord>): Plan {
    match Settings(env)
    case Err(e) => Raise(e)
    case Ok(names) => Then(Calls([Scan(names.0, "dynamodb")]), AfterScan(tagsOf, st, selected))
  }

  /**
   * The handler writes nothing to the tracker table, and its rows go to `tagCaptureTable`
   * whatever TAG_REPORT_TABLE_NAME says.
   */
  lemma ReadsTrackerOnly(env: Env, tagsOf: TableTags, st: Stamps, selected: seq<TrackerRecord>)
    ensures forall c | c in HandlerPlan(env, tagsOf, st, selected).calls :: !TrackerWrite(c)
    ensures forall c | c in HandlerPlan(env, tagsOf, st, selected).calls && c.Dynamo? && c.dynamo.PutReportRow? ::
      c.dynamo.table == TagCaptureTable
  {
    if Settings(env).Ok? && selected != [] {
      var ps := RecordPlans(tagsOf, st, selected);
      SequenceCalls(ps);
      forall i | 0 <= i < |ps|
        ensures forall c | c in ps[i].calls ::
          (c.Dynamo? && c.dynamo.ListTagsOfResource?) || (c.Dynamo? && c.dynamo.PutReportRow? && c.dynamo.table == TagCaptureTable)
      {
        RecordCalls(tagsOf, st, selected[i], i);
      }
    }
  }

  /** Both table names are required before the scan; an empty scan ends the handler with nothing written. */
  lemma SettingsFirst(env: Env, tagsOf: TableTags, st: Stamps, selected: seq<TrackerRecord>)
    ensures Settings(env).Err? ==> HandlerPlan(env, tagsOf, st, selected) == Raise(Settings(env).error)
    ensures Settings(env).Ok? && selected == [] ==> HandlerPlan(env, tagsOf, st, selected) == Calls([Scan(env[TrackerTableVar], "dynamodb")])
  {
  }

  /** The k-th record's turn. */
  method ReportOne(provider: Provider, tagsOf: TableTags, st: Stamps, rec: TrackerRecord, k: nat) returns (r: Outcome)
    modifies provider
    ensures Carried(provider.outcome, old(provider.calls), provider.calls, RecordPlan(tagsOf, st, rec, k), r)
  {
    ghost var before := provider.calls;
    var arn := TableArn(rec);
    if arn.Err? {
      CarriedToEnd(provider.outcome, before, RecordPlan(tagsOf, st, rec, k));
      return Err(arn.error);
    }
    var lookup := Lookup(arn.value);
    ghost var q := Report(TagCaptureTable, tagsOf(arn.value), rec, st.ids(k), st.times(k));
    var listed := Call(provider, lookup);
    if listed.Err? {
      LeadFailed(provider.outcome, before, lookup, q);
      return listed;
    }
    r := ReportTags(provider, TagCaptureTable, tagsOf(arn.value), rec, st.ids(k), st.times(k));
    LeadProceeded(provider.outcome, before, provider.calls, lookup, q, r);
  }

  /** The records in scan order; the first failure ends the handler. */
  method ReportAll(provider: Provider, tagsOf: TableTags, st: Stamps, rs: seq<TrackerRecord>) returns (r: Outcome)
    modifies provider
    ensures Carried(provider.outcome, old(provider.calls), provider.calls, Sequence(RecordPlans(tagsOf, st, rs)), r)
  {
    ghost var start := provider.calls;
    ghost var ps := RecordPlans(tagsOf, st, rs);
    SequenceStart(provider.outcome, start, ps);
    var i := 0;
    while i < |rs|
      invariant 0 <= i <= |rs|
      invariant Carried(provider.outcome, start, provider.calls, Sequence(ps[..i]), Pass)
    {
      ghost var mid := provider.calls;
      var step := ReportOne(provider, tagsOf, st, rs[i], i);
      SequenceStep(provider.outcome, start, mid, provider.calls, ps, i, step);
      if step.Err? {
        return step;
      }
      i := i + 1;
    }
    SequenceEnd(provider.outcome, start, provider.calls, ps, Pass);
    r := Pass;
  }

  /**
   * `lambda_handler`, with the tables' tags `tagsOf` and the row stamps `st`. `selected` is what
   * the scan answered, every catalogued DynamoDB source once. The tracker table is left as it is.
   */
  method Handle(provider: Provider, table: TrackerTable, env: Env, tagsOf: TableTags, st: Stamps)
    returns (r: Outcome, ghost selected: seq<TrackerRecord>)
    requires table.Valid()
    modifies provider
    ensures Scanned(provider.outcome, old(provider.calls), env, "dynamodb") ==> Selected(table.items, Catalogued("dynamodb"), selected)
    ensures !Scanned(provider.outcome, old(provider.calls), env, "dynamodb") ==> selected == []
    ensures Carried(provider.outcome, old(provider.calls), provider.calls, HandlerPlan(env, tagsOf, st, selected), r)
  {
    ghost var before := provider.calls;
    selected := [];
    var names := Settings(env);
    if names.Err? {
      CarriedToEnd(provider.outcome, before, HandlerPlan(env, tagsOf, st, selected));
      return Err(names.error), selected;
    }
    var scan := Scan(names.value.0, "dynamodb");
    var scanned := Call(provider, scan);
    if scanned.Err? {
      LeadFailed(provider.outcome, before, scan, AfterScan(tagsOf, st, selected));
      return scanned, selected;
    }
    var rs := table.Select(Catalogued("dynamodb"));
    selected := rs;
    if rs == [] {
      CarriedToEnd(provider.outcome, provider.calls, Done);
      assert provider.calls + [] == provider.calls;
      LeadProceeded(provider.outcome, before, provider.calls, scan, Done, Pass);
      return Pass, selected;
    }
    r := ReportAll(provider, tagsOf, st, rs);
    LeadProceeded(provider.outcome, before, provider.calls, scan, AfterScan(tagsOf, st, rs), r);
  }
}
