/**
 * What the three tag reporters (s3-tag-report, rds-tag-report, ddb-tag-report) share: the
 * required tag keys, the `tag_obj` filter, the report row, and the tail of each record's turn
 * (skip an untagged source, read its catalog table name, write one row when a required tag is there).
 */
module TagReport {
  import opened Errors
  import opened Json
  import opened Validation
  import opened TrackerRecords
  import opened Aws

  const TrackerTableVar := "DDB_GLUE_TRACKER_TABLE_NAME"
  const TagTableVar := "TAG_REPORT_TABLE_NAME"

  /** The tags a report row records; any other tag is dropped. */
  const RequiredTagKeys: seq<string> :=
    ["APP_ID", "Purpose of Processing", "Data Subjects", "APP_NAME", "Business Function", "Processing Activity"]

  /** The report table rds-tag-report and ddb-tag-report write to, whatever TAG_REPORT_TABLE_NAME says. */
  const TagCaptureTable := "tagCaptureTable"

  /** The fresh row ids (`uuid4`) and the time stamps of the rows, by the record's place in the scan. */
  datatype Stamps = Stamps(ids: nat -> string, times: nat -> string)

  /** `tag_obj` after its loop: each required key mapped to the value of the last tag with that key. */
  function Filtered(tags: seq<Tag>): map<string, string>
    decreases |tags|
  {
    if tags == [] then map[]
    else
      var t := tags[|tags| - 1];
      var m := Filtered(tags[..|tags| - 1]);
      if t.key in RequiredTagKeys then m[t.key := t.value] else m
  }

  /** A key is kept exactly when it is required and some tag carries it. */
  lemma {:induction false} FilteredKeys(tags: seq<Tag>)
    ensures forall k :: k in Filtered(tags) <==> k in RequiredTagKeys && exists i | 0 <= i < |tags| :: tags[i].key == k
    decreases |tags|
  {
    if tags != [] {
      var init := tags[..|tags| - 1];
      FilteredKeys(init);
      forall k ensures k in Filtered(tags) <==> k in RequiredTagKeys && exists i | 0 <= i < |tags| :: tags[i].key == k {
        if k in Filtered(tags) && k != tags[|tags| - 1].key {
          var i :| 0 <= i < |init| && init[i].key == k;
          assert tags[i].key == k;
        }
        if k in RequiredTagKeys && (exists i | 0 <= i < |tags| :: tags[i].key == k) && k != tags[|tags| - 1].key {
          var i :| 0 <= i < |tags| && tags[i].key == k;
          assert init[i].key == k;
        }
      }
    }
  }

  /** A kept key holds the value of the last tag that carries it: a later duplicate overwrites an earlier one. */
  lemma {:induction false} FilteredLast(tags: seq<Tag>, i: nat)
    requires i < |tags| && tags[i].key in RequiredTagKeys
    requires forall j | i < j < |tags| :: tags[j].key != tags[i].key
    ensures tags[i].key in Filtered(tags) && Filtered(tags)[tags[i].key] == tags[i].value
    decreases |tags|
  {
    if i < |tags| - 1 {
      var init := tags[..|tags| - 1];
      FilteredLast(init, i);
    }
  }

  /** No row is due exactly when no tag has a required key. */
  lemma FilteredEmpty(tags: seq<Tag>)
    ensures Filtered(tags) == map[] <==> forall i | 0 <= i < |tags| :: tags[i].key !in RequiredTagKeys
  {
    FilteredKeys(tags);
    if Filtered(tags) != map[] {
      var k :| k in Filtered(tags);
    } else {
      forall i | 0 <= i < |tags| ensures tags[i].key !in RequiredTagKeys {
        assert tags[i].key !in Filtered(tags);
      }
    }
  }

  /** The `tag_obj` loop: required-key tags assigned one by one, in the order the service listed them. */
  method FilterTags(tags: seq<Tag>) returns (obj: map<string, string>)
    ensures obj == Filtered(tags)
    ensures obj.Keys <= set k | k in RequiredTagKeys
  {
    obj := map[];
    var i := 0;
    while i < |tags|
      invariant 0 <= i <= |tags|
      invariant obj == Filtered(tags[..i])
      invariant obj.Keys <= set k | k in RequiredTagKeys
    {
      assert tags[..i + 1][..i] == tags[..i];
      if tags[i].key in RequiredTagKeys {
        obj := obj[tags[i].key := tags[i].value];
      }
      i := i + 1;
    }
    assert tags[..i] == tags;
  }

  /** The row written for a source: its required tags, then `id`, `data_catalog_table_name` and `time_stamp`. */
  function Row(obj: map<string, string>, id: string, table: Value, time: string): map<string, Value> {
    (map k | k in obj :: Str(obj[k]))["id" := Str(id)]["data_catalog_table_name" := table]["time_stamp" := Str(time)]
  }

  /**
   * A row holds exactly the kept tags and the three added fields; no required key collides with
   * an added field, so every kept tag appears with its value.
   */
  lemma RowContents(tags: seq<Tag>, id: string, table: Value, time: string)
    ensures var row := Row(Filtered(tags), id, table, time);
      && row.Keys == Filtered(tags).Keys + {"id", "data_catalog_table_name", "time_stamp"}
      && row["id"] == Str(id) && row["data_catalog_table_name"] == table && row["time_stamp"] == Str(time)
      && forall k | k in Filtered(tags) :: row[k] == Str(Filtered(tags)[k])
  {
    FilteredApart(tags);
  }

  /** No key of `tag_obj` is one of the three fields the row adds. */
  lemma {:induction false} FilteredApart(tags: seq<Tag>)
    ensures forall k | k in Filtered(tags) :: k != "id" && k != "data_catalog_table_name" && k != "time_stamp"
    decreases |tags|
  {
    if tags != [] {
      FilteredApart(tags[..|tags| - 1]);
      assert tags[|tags| - 1].key in RequiredTagKeys ==> |tags[|tags| - 1].key| !in {2, 10, 23};
    }
  }

  /** The row write: `put_item` into the report table, status-checked. */
  function Put(reportTable: string, tags: seq<Tag>, table: Value, id: string, time: string): Request {
    Dynamo(PutReportRow(reportTable, Row(Filtered(tags), id, table, time)))
  }

  /**
   * The end of a record's turn once its tags are known: an untagged source is skipped, then the
   * catalog table name is read, and a row is written unless no required tag is there.
   */
  function Report(reportTable: string, tags: seq<Tag>, rec: TrackerRecord, id: string, time: string): Plan {
    if tags == [] then Done
    else
      match Present(rec.catalogTableName, "data_catalog_table_name")
      case Err(e) => Raise(e)
      case Ok(table) => if Filtered(tags) == map[] then Done else Calls([Put(reportTable, tags, table, id, time)])
  }

  /**
   * At most one row per record, and one exactly when the source is tagged, its catalog table
   * name is recorded and some tag has a required key; the row goes to `reportTable`.
   */
  lemma ReportRow(reportTable: string, tags: seq<Tag>, rec: TrackerRecord, id: string, time: string)
    ensures var p := Report(reportTable, tags, rec, id, time);
      && |p.calls| <= 1
      && (p.calls != [] <==> tags != [] && rec.catalogTableName.Some? && exists i | 0 <= i < |tags| :: tags[i].key in RequiredTagKeys)
      && (p.calls != [] ==> p.calls[0] == Dynamo(PutReportRow(reportTable, Row(Filtered(tags), id, rec.catalogTableName.value, time))))
      && (p.fault.Some? <==> tags != [] && rec.catalogTableName.None?)
      && (p.fault.Some? ==> p.fault.value == KeyError("data_catalog_table_name"))
  {
    FilteredEmpty(tags);
  }

  /** The end of a record's turn, carried out. */
  method ReportTags(provider: Provider, reportTable: string, tags: seq<Tag>, rec: TrackerRecord, id: string, time: string)
    returns (r: Outcome)
    modifies provider
    ensures Carried(provider.outcome, old(provider.calls), provider.calls, Report(reportTable, tags, rec, id, time), r)
  {
    if tags == [] {
      CarriedToEnd(provider.outcome, provider.calls, Report(reportTable, tags, rec, id, time));
      return Pass;
    }
    var table := Present(rec.catalogTableName, "data_catalog_table_name");
    if table.Err? {
      CarriedToEnd(provider.outcome, provider.calls, Report(reportTable, tags, rec, id, time));
      return Err(table.error);
    }
    var obj := FilterTags(tags);
    if obj == map[] {
      CarriedToEnd(provider.outcome, provider.calls, Report(reportTable, tags, rec, id, time));
      return Pass;
    }
    var put := Dynamo(PutReportRow(reportTable, Row(obj, id, table.value, time)));
    CarriedSingle(provider.outcome, provider.calls, put);
    r := Call(provider, put);
  }

  /** The scan of the catalogued sources of one type. */
  function Scan(tracker: string, sourceType: string): Request {
    Dynamo(ExecuteStatement(Statement(Catalogued(sourceType), tracker)))
  }

  /** The scan of the `sourceType` sources of `tracker`, made after the log `before`, was accepted. */
  ghost predicate ScanAccepted(outcome: nat -> Reply, before: seq<Request>, tracker: string, sourceType: string) {
    Proceeds(Scan(tracker, sourceType), outcome(|before|))
  }

  /**
   * The settings every reporter requires before its scan, in order: the tracker table, then the
   * tag table; the latter is the row destination for s3-tag-report only.
   */
  function Settings(env: Env): (r: Result<(string, string)>)
    ensures r.Ok? <==> Required(env, TrackerTableVar).Ok? && Required(env, TagTableVar).Ok?
    ensures r.Ok? ==> r.value == (env[TrackerTableVar], env[TagTableVar])
    ensures Required(env, TrackerTableVar).Err? ==> r == Err(MissingEnvironmentVariable(TrackerTableVar))
    ensures Required(env, TrackerTableVar).Ok? && Required(env, TagTableVar).Err? ==> r == Err(MissingEnvironmentVariable(TagTableVar))
  {
    var tracker :- Required(env, TrackerTableVar);
    var tagTable :- Required(env, TagTableVar);
    Ok((tracker, tagTable))
  }

  /** The settings were there and the scan was accepted, so the handler saw the selection. */
  ghost predicate Scanned(outcome: nat -> Reply, before: seq<Request>, env: Env, sourceType: string) {
    Settings(env).Ok? && ScanAccepted(outcome, before, env[TrackerTableVar], sourceType)
  }
}
