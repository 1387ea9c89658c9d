/**
 * The items of the Glue job tracker table: one per discovered data source, with the two stage
 * flags the pipeline raises (`data_catalog_entry`, then `glue_job_created`), and the
 * selections the handlers run over them.
 */
module TrackerRecords {
  import opened Errors
  import opened Json

  datatype TrackerRecord = TrackerRecord(
    id: string,
    dataSourceType: Value,
    glueJobCreated: bool,
    dataCatalogEntry: bool,
    catalogTableName: Option<Value>,
    catalogDbName: Option<Value>,
    dataSourceAttrs: Value)

  /** `obj[key]` on an unmarshalled tracker item: an attribute the item lacks is a KeyError. */
  function Present(v: Option<Value>, key: string): (r: Result<Value>)
    ensures r.Ok? <==> v.Some?
    ensures r.Ok? ==> r.value == v.value
    ensures r.Err? ==> r.error == KeyError(key)
  {
    if v.Some? then Ok(v.value) else Err(KeyError(key))
  }

  /** The PartiQL selections the stage handlers and tag reporters run against the tracker. */
  datatype Selection =
    | CatalogPending              // no catalog entry and no job yet, an S3 source
    | JobPending                  // catalogued but no job yet, an S3 source
    | Catalogued(sourceType: string)

  predicate Matches(sel: Selection, r: TrackerRecord) {
    match sel
    case CatalogPending => !r.glueJobCreated && !r.dataCatalogEntry && r.dataSourceType == Str("s3")
    case JobPending => !r.glueJobCreated && r.dataCatalogEntry && r.dataSourceType == Str("s3")
    case Catalogued(t) => r.dataCatalogEntry && r.dataSourceType == Str(t)
  }

  /** The statement text each selection is sent as, for the tracker table `table`. */
  function Statement(sel: Selection, table: string): string {
    "SELECT * FROM " + table + " WHERE " +
    match sel
    case CatalogPending => "glue_job_created = False AND data_catalog_entry = False AND data_source_type = 's3'"
    case JobPending => "glue_job_created = False AND data_catalog_entry = True AND data_source_type = 's3'"
    case Catalogued(t) => "data_catalog_entry = True AND data_source_type = '" + t + "'"
  }

  /** A job is only ever created for a source that already has a catalog entry. */
  predicate Staged(r: TrackerRecord) {
    r.glueJobCreated ==> r.dataCatalogEntry
  }

  /** What every update keeps: the identity, type and attributes of the source. */
  predicate SameSource(a: TrackerRecord, b: TrackerRecord) {
    a.id == b.id && a.dataSourceType == b.dataSourceType && a.dataSourceAttrs == b.dataSourceAttrs
  }

  /** No flag that was raised in `a` is lowered in `b`. */
  predicate FlagsKept(a: TrackerRecord, b: TrackerRecord) {
    (a.dataCatalogEntry ==> b.dataCatalogEntry) && (a.glueJobCreated ==> b.glueJobCreated)
  }

  /** The write of catalog-creator-s3's `update_ddb`. */
  function WithCatalogEntry(r: TrackerRecord, table: Value, db: Value): (u: TrackerRecord)
    ensures SameSource(r, u) && FlagsKept(r, u) && u.glueJobCreated == r.glueJobCreated
    ensures u.dataCatalogEntry && u.catalogTableName == Some(table) && u.catalogDbName == Some(db)
    ensures Staged(r) ==> Staged(u)
    ensures Matches(CatalogPending, r) ==> !Matches(CatalogPending, u) && Matches(JobPending, u)
  {
    r.(dataCatalogEntry := true, catalogTableName := Some(table), catalogDbName := Some(db))
  }

  /** The write of s3-glue-job-creator's `update_ddb`. */
  function WithGlueJob(r: TrackerRecord): (u: TrackerRecord)
    ensures SameSource(r, u) && FlagsKept(r, u) && u.glueJobCreated
    ensures u.dataCatalogEntry == r.dataCatalogEntry && u.catalogTableName == r.catalogTableName
    ensures u.catalogDbName == r.catalogDbName
    ensures Staged(u) <==> r.dataCatalogEntry
    ensures !Matches(CatalogPending, u) && !Matches(JobPending, u)
  {
    r.(glueJobCreated := true)
  }

  /** Once a record has a job, no stage handler selects it again. */
  lemma {:induction false} JobCreatedIsFinal(r: TrackerRecord)
    requires r.glueJobCreated
    ensures !Matches(CatalogPending, r) && !Matches(JobPending, r)
    ensures !Matches(CatalogPending, WithCatalogEntry(r, Null, Null))
  {
    var u := WithCatalogEntry(r, Null, Null);
    assert u.glueJobCreated;
  }

  /** The two stage selections never overlap, and each lies inside the catalogued-or-pending S3 records. */
  lemma StagesDisjoint(r: TrackerRecord)
    ensures !(Matches(CatalogPending, r) && Matches(JobPending, r))
    ensures Matches(JobPending, r) ==> Matches(Catalogued("s3"), r)
    ensures Matches(CatalogPending, r) ==> !Matches(Catalogued("s3"), r)
  {
  }

}
