/**
 * lambda/catalog-creator-s3: every S3 source that has neither a catalog entry nor a job gets a
 * Glue catalog table and a crawler over it, and is then marked as catalogued in the tracker.
 */
module CatalogCreatorS3 {
  import opened Errors
  import opened Json
  import opened Text
  import opened Validation
  import opened TrackerRecords
  import opened Aws
  import opened Tracker

  const TrackerTableVar := "DDB_GLUE_TRACKER_TABLE_NAME"
  const RoleVar := "GLUE_ROLE_ARN"
  const CatalogDbVar := "DATA_CATALOG_DB_NAME"

  /** `s3_obj["data_source_attrs"]["bucketName"]`, which must be a string for `.replace`. */
  function BucketName(rec: TrackerRecord): (r: Result<string>)
    ensures r.Ok? <==>
      rec.dataSourceAttrs.Obj? && "bucketName" in rec.dataSourceAttrs.fields && rec.dataSourceAttrs.fields["bucketName"].Str?
    ensures r.Ok? ==> r.value == rec.dataSourceAttrs.fields["bucketName"].s
    ensures rec.dataSourceAttrs.Obj? && "bucketName" !in rec.dataSourceAttrs.fields ==> r == Err(KeyError("bucketName"))
  {
    var b :- Key(rec.dataSourceAttrs, "bucketName");
    if b.Str? then Ok(b.s) else Err(AttributeError)
  }

  /** The catalog table of a bucket: `"{db}_{bucket}"` with `-` and then `.` replaced by `_`. */
  function CatalogTableName(db: string, bucket: string): string {
    db + "_" + ReplaceAll(ReplaceAll(bucket, "-", "_"), ".", "_")
  }

  /**
   * The catalog table name, character by character: the database name, an underscore, and the
   * bucket name with each `-` and `.` turned into `_` and every other character kept.
   */
  lemma {:induction false} CatalogTableNameChars(db: string, bucket: string)
    ensures var t := CatalogTableName(db, bucket);
      && |t| == |db| + 1 + |bucket|
      && t[..|db| + 1] == db + "_"
      && forall i | 0 <= i < |bucket| ::
        t[|db| + 1 + i] == if bucket[i] == '-' || bucket[i] == '.' then '_' else bucket[i]
  {
    var dashes := ReplaceAll(bucket, "-", "_");
    ReplaceCharPointwise(bucket, '-', '_');
    ReplaceCharPointwise(dashes, '.', '_');
    var t := CatalogTableName(db, bucket);
    assert t == (db + "_") + ReplaceAll(dashes, ".", "_");
  }

  /** The calls for one selected record: the catalog table, its crawler, then the tracker update. */
  function RecordPlan(tracker: string, role: string, db: string, account: string, rec: TrackerRecord): Plan {
    match BucketName(rec)
    case Err(e) => Raise(e)
    case Ok(bucket) =>
      var table := CatalogTableName(db, bucket);
      Calls([Glue(CreateCatalogTable(account, db, table, "s3://" + bucket + "/")),
             Glue(CreateCrawler(table + "_crawler", role, db, CatalogTarget(db, [table]))),
             Dynamo(UpdateCatalogEntry(tracker, rec.id, Str(table), Str(db)))])
  }

  function RecordPlans(tracker: string, role: string, db: string, account: string, rs: seq<TrackerRecord>): (ps: seq<Plan>)
    ensures |ps| == |rs|
    ensures forall i | 0 <= i < |rs| :: ps[i] == RecordPlan(tracker, role, db, account, rs[i])
  {
    seq(|rs|, i requires 0 <= i < |rs| => RecordPlan(tracker, role, db, account, rs[i]))
  }

  /** The scan of the records waiting for a catalog entry. */
  function Scan(tracker: string): Request {
    Dynamo(ExecuteStatement(Statement(CatalogPending, tracker)))
  }

  /**
   * What follows an accepted scan that answered `selected`: nothing if it is empty; otherwise
   * the role and the database are required, the account is looked up, and the records follow.
   */
  function AfterScan(env: Env, tracker: string, selected: seq<TrackerRecord>, account: string): Plan {
    if selected == [] then Done
    else
      match Required(env, RoleVar)
      case Err(e) => Raise(e)
      case Ok(role) =>
        match Required(env, CatalogDbVar)
        case Err(e) => Raise(e)
        case Ok(db) => Then(Calls([GetCallerIdentity]), Sequence(RecordPlans(tracker, role, db, account, selected)))
  }

  /** What `lambda_handler` does when every call goes through; `account` is the caller's account id. */
  function HandlerPlan(env: Env, selected: seq<TrackerRecord>, account: string): Plan {
    match Required(env, TrackerTableVar)
    case Err(e) => Raise(e)
    case Ok(tracker) => Then(Calls([Scan(tracker)]), AfterScan(env, tracker, selected, account))
  }

  /** The database the records are catalogued under (any text while it is unset, when nothing is catalogued). */
  function CatalogDb(env: Env): string {
    if CatalogDbVar in env then env[CatalogDbVar] else ""
  }

  /** The change `update_ddb` makes for one record, once its calls went through. */
  function Entered(items: map<string, TrackerRecord>, rec: TrackerRecord, db: string): map<string, TrackerRecord> {
    match BucketName(rec)
    case Err(_) => items
    case Ok(bucket) =>
      if rec.id in items then items[rec.id := WithCatalogEntry(items[rec.id], Str(CatalogTableName(db, bucket)), Str(db))]
      else items
  }

  /** The tracker after the records `done` were catalogued, in order. */
  function Advanced(items: map<string, TrackerRecord>, done: seq<TrackerRecord>, db: string): map<string, TrackerRecord>
    decreases |done|
  {
    if done == [] then items else Entered(Advanced(items, done[..|done| - 1], db), done[|done| - 1], db)
  }

  /** Cataloguing one more record of `rs` applies its change to the table the earlier ones left. */
  lemma AdvancedSnoc(items: map<string, TrackerRecord>, rs: seq<TrackerRecord>, i: nat, db: string)
    requires i < |rs|
    ensures Advanced(items, rs[..i + 1], db) == Entered(Advanced(items, rs[..i], db), rs[i], db)
  {
    assert rs[..i + 1][..i] == rs[..i];
  }

  /**
   * Cataloguing changes no record's source, lowers no flag and creates no job; a record that was
   * not catalogued is unchanged, and one that was is catalogued and no longer pending.
   */
  lemma {:induction false} AdvancedAt(items: map<string, TrackerRecord>, done: seq<TrackerRecord>, db: string, id: string)
    ensures id in Advanced(items, done, db) <==> id in items
    ensures id in items ==>
      var u := Advanced(items, done, db)[id];
      && SameSource(items[id], u) && FlagsKept(items[id], u) && u.glueJobCreated == items[id].glueJobCreated
      && ((forall j | 0 <= j < |done| :: done[j].id != id) ==> u == items[id])
      && ((exists j | 0 <= j < |done| :: done[j].id == id && BucketName(done[j]).Ok?) ==>
            u.dataCatalogEntry && u.catalogDbName == Some(Str(db)) && !Matches(CatalogPending, u))
    decreases |done|
  {
    if done != [] {
      var prefix := done[..|done| - 1];
      var last := done[|done| - 1];
      AdvancedAt(items, prefix, db, id);
      if id in items {
        assert (forall j | 0 <= j < |done| :: done[j].id != id) ==> (forall j | 0 <= j < |prefix| :: prefix[j].id != id) by {
          forall j | 0 <= j < |prefix| ensures prefix[j] == done[j] { }
        }
        if exists j | 0 <= j < |done| :: done[j].id == id && BucketName(done[j]).Ok? {
          var j :| 0 <= j < |done| && done[j].id == id && BucketName(done[j]).Ok?;
          if j < |prefix| {
            assert prefix[j] == done[j];
          }
        }
      }
    }
  }

  /** Cataloguing every selected record leaves no record waiting for a catalog entry. */
  lemma NothingPending(items: map<string, TrackerRecord>, selected: seq<TrackerRecord>, db: string)
    requires Selected(items, CatalogPending, selected)
    requires forall i | 0 <= i < |selected| :: BucketName(selected[i]).Ok?
    ensures forall id | id in Advanced(items, selected, db) :: !Matches(CatalogPending, Advanced(items, selected, db)[id])
  {
    forall id | id in Advanced(items, selected, db) ensures !Matches(CatalogPending, Advanced(items, selected, db)[id]) {
      AdvancedAt(items, selected, db, id);
      if Matches(CatalogPending, items[id]) {
        var i :| 0 <= i < |selected| && selected[i].id == id;
        assert BucketName(selected[i]).Ok?;
      }
    }
  }

  /** With nothing pending, a re-run scans and stops: no setting is read and nothing is created or updated. */
  lemma RerunDoesNothing(items: map<string, TrackerRecord>, selected: seq<TrackerRecord>, env: Env, account: string)
    requires forall id | id in items :: !Matches(CatalogPending, items[id])
    requires Selected(items, CatalogPending, selected)
    requires Required(env, TrackerTableVar).Ok?
    ensures HandlerPlan(env, selected, account) == Calls([Scan(env[TrackerTableVar])])
  {
    SelectedNothing(items, CatalogPending, selected);
  }

  /** An empty scan returns before GLUE_ROLE_ARN and DATA_CATALOG_DB_NAME are read: it succeeds without them. */
  lemma EmptyScanReadsNoSettings(env: Env, account: string)
    requires Required(env, TrackerTableVar).Ok?
    ensures HandlerPlan(env, [], account) == HandlerPlan(env - {RoleVar, CatalogDbVar}, [], account)
    ensures HandlerPlan(env, [], account).fault.None?
  {
    assert Required(env - {RoleVar, CatalogDbVar}, TrackerTableVar) == Required(env, TrackerTableVar);
  }

  /**
   * The crawler of a record is named after its catalog table and crawls exactly that table of
   * the database; the table lies at the bucket's root; the tracker update of the record names
   * the same table and database.
   */
  lemma CrawlerCoversTable(tracker: string, role: string, db: string, account: string, rec: TrackerRecord)
    requires BucketName(rec).Ok?
    ensures var cs := RecordPlan(tracker, role, db, account, rec).calls;
      && |cs| == 3 && cs[0].Glue? && cs[0].glue.CreateCatalogTable? && cs[1].Glue? && cs[1].glue.CreateCrawler?
      && var table := cs[0].glue.tableName;
      && cs[0].glue.location == "s3://" + BucketName(rec).value + "/"
      && cs[1].glue.name == table + "_crawler"
      && cs[1].glue.database == db && cs[1].glue.target == CatalogTarget(db, [table])
      && cs[2] == Dynamo(UpdateCatalogEntry(tracker, rec.id, Str(table), Str(db)))
  {
  }

  /** One record: create its catalog table, then its crawler, then mark it in the tracker. */
  method CatalogueOne(provider: Provider, table: TrackerTable, tracker: string, role: string, db: string,
                      account: string, rec: TrackerRecord) returns (r: Outcome)
    requires table.Valid() && rec.id in table.items
    modifies provider, table
    ensures table.Valid() && table.items.Keys == old(table.items).Keys
    ensures Carried(provider.outcome, old(provider.calls), provider.calls, RecordPlan(tracker, role, db, account, rec), r)
    ensures table.items == if r.Ok? then Entered(old(table.items), rec, db) else old(table.items)
    ensures table.items == Effect(old(table.items), provider.outcome, |old(provider.calls)|, provider.calls[|old(provider.calls)|..])
  {
    var bucket := BucketName(rec);
    if bucket.Err? {
      EffectNone(table.items, provider.outcome, provider.calls);
      CarriedToEnd(provider.outcome, provider.calls, RecordPlan(tracker, role, db, account, rec));
      return Err(bucket.error);
    }
    r := CreateAndMark(provider, table, tracker, role, db, account, rec.id, bucket.value, CatalogTableName(db, bucket.value));
  }

  /** The three calls for the bucket `bucket` of the record `id`, whose catalog table is `name`. */
  method CreateAndMark(provider: Provider, table: TrackerTable, tracker: string, role: string, db: string,
                       account: string, id: string, bucket: string, name: string) returns (r: Outcome)
    requires table.Valid() && id in table.items
    modifies provider, table
    ensures table.Valid() && table.items.Keys == old(table.items).Keys
    ensures Carried(provider.outcome, old(provider.calls), provider.calls,
      Calls([Glue(CreateCatalogTable(account, db, name, "s3://" + bucket + "/")),
             Glue(CreateCrawler(name + "_crawler", role, db, CatalogTarget(db, [name]))),
             Dynamo(UpdateCatalogEntry(tracker, id, Str(name), Str(db)))]), r)
    ensures table.items == if r.Ok? then old(table.items)[id := WithCatalogEntry(old(table.items)[id], Str(name), Str(db))]
      else old(table.items)
    ensures table.items == Effect(old(table.items), provider.outcome, |old(provider.calls)|, provider.calls[|old(provider.calls)|..])
  {
    ghost var before := provider.calls;
    ghost var items := table.items;
    var create := Glue(CreateCatalogTable(account, db, name, "s3://" + bucket + "/"));
    var crawl := Glue(CreateCrawler(name + "_crawler", role, db, CatalogTarget(db, [name])));
    var update := Dynamo(UpdateCatalogEntry(tracker, id, Str(name), Str(db)));
    CarriedThree(provider.outcome, provider.calls, create, crawl, update);
    EffectNone(items, provider.outcome, before);
    r := Call(provider, create);
    EffectCall(items, provider.outcome, before, before, create);
    if r.Ok? {
      ghost var created := provider.calls;
      r := Call(provider, crawl);
      EffectCall(items, provider.outcome, before, created, crawl);
      if r.Ok? {
        ghost var crawled := provider.calls;
        var reply := provider.Invoke(update);
        EffectCall(items, provider.outcome, before, crawled, update);
        r := table.SetCatalogEntry(tracker, id, Str(name), Str(db), reply);
      }
    }
  }

  /** The account lookup, then the records in scan order; the first failure ends the handler. */
  method CatalogueAll(provider: Provider, table: TrackerTable, tracker: string, role: string, db: string,
                      account: string, rs: seq<TrackerRecord>) returns (r: Outcome, ghost advanced: nat)
    requires table.Valid()
    requires forall i | 0 <= i < |rs| :: rs[i].id in table.items
    modifies provider, table
    ensures table.Valid()
    ensures Carried(provider.outcome, old(provider.calls), provider.calls,
      Then(Calls([GetCallerIdentity]), Sequence(RecordPlans(tracker, role, db, account, rs))), r)
    ensures advanced <= |rs| && table.items == Advanced(old(table.items), rs[..advanced], db)
    ensures table.items == Effect(old(table.items), provider.outcome, |old(provider.calls)|, provider.calls[|old(provider.calls)|..])
    ensures r.Ok? ==> advanced == |rs|
    ensures r.Err? ==> advanced < |rs| || rs == []
  {
    ghost var before := provider.calls;
    ghost var items := table.items;
    ghost var ps := RecordPlans(tracker, role, db, account, rs);
    advanced := 0;
    EffectNone(items, provider.outcome, before);
    r := Call(provider, GetCallerIdentity);
    EffectCall(items, provider.outcome, before, before, GetCallerIdentity);
    CarriedSingle(provider.outcome, before, GetCallerIdentity);
    if r.Err? {
      CarriedStopped(provider.outcome, before, provider.calls, Calls([GetCallerIdentity]), r, Sequence(ps));
      assert rs[..0] == [];
      return;
    }
    ghost var start := provider.calls;
    r, advanced := CatalogueRecords(provider, table, tracker, role, db, account, rs);
    CarriedExtends(provider.outcome, start, provider.calls, Sequence(ps), r);
    EffectThen(items, provider.outcome, before, start, provider.calls);
    CarriedThen(provider.outcome, before, start, provider.calls, Calls([GetCallerIdentity]), Pass, Sequence(ps), r);
  }

  /**
   * The records in scan order: each is catalogued in turn, and the first failure ends the run
   * with the records before it catalogued and it and the later ones untouched.
   */
  method CatalogueRecords(provider: Provider, table: TrackerTable, tracker: string, role: string, db: string,
                          account: string, rs: seq<TrackerRecord>) returns (r: Outcome, ghost advanced: nat)
    requires table.Valid()
    requires forall i | 0 <= i < |rs| :: rs[i].id in table.items
    modifies provider, table
    ensures table.Valid()
    ensures Carried(provider.outcome, old(provider.calls), provider.calls, Sequence(RecordPlans(tracker, role, db, account, rs)), r)
    ensures advanced <= |rs| && table.items == Advanced(old(table.items), rs[..advanced], db)
    ensures table.items == Effect(old(table.items), provider.outcome, |old(provider.calls)|, provider.calls[|old(provider.calls)|..])
    ensures r.Ok? ==> advanced == |rs|
    ensures r.Err? ==> advanced < |rs|
  {
    ghost var start := provider.calls;
    ghost var items := table.items;
    ghost var ps := RecordPlans(tracker, role, db, account, rs);
    SequenceStart(provider.outcome, start, ps);
    EffectNone(items, provider.outcome, start);
    assert rs[..0] == [];
    var i := 0;
    while i < |rs|
      invariant 0 <= i <= |rs|
      invariant table.Valid() && table.items.Keys == items.Keys
      invariant table.items == Advanced(items, rs[..i], db)
      invariant |start| <= |provider.calls| && table.items == Effect(items, provider.outcome, |start|, provider.calls[|start|..])
      invariant Carried(provider.outcome, start, provider.calls, Sequence(ps[..i]), Pass)
    {
      ghost var mid := provider.calls;
      ghost var sofar := table.items;
      var step := CatalogueOne(provider, table, tracker, role, db, account, rs[i]);
      CataloguedStepped(provider.outcome, start, mid, provider.calls, tracker, role, db, account, rs, i, step,
        items, sofar, table.items);
      if step.Err? {
        return step, i;
      }
      i := i + 1;
    }
    SequenceEnd(provider.outcome, start, provider.calls, ps, Pass);
    assert rs[..|rs|] == rs;
    return Pass, |rs|;
  }

  /**
   * One more record carried out after the earlier ones went through: the run is carried out one
   * record further (and ends there if it failed), the table is the fold one record further when
   * it went through, and the table follows the log.
   */
  lemma CataloguedStepped(outcome: nat -> Reply, start: seq<Request>, mid: seq<Request>, after: seq<Request>,
                          tracker: string, role: string, db: string, account: string, rs: seq<TrackerRecord>, i: nat, r: Outcome,
                          items: map<string, TrackerRecord>, sofar: map<string, TrackerRecord>, now: map<string, TrackerRecord>)
    requires i < |rs|
    requires Carried(outcome, start, mid, Sequence(RecordPlans(tracker, role, db, account, rs)[..i]), Pass)
    requires Carried(outcome, mid, after, RecordPlan(tracker, role, db, account, rs[i]), r)
    requires sofar == Advanced(items, rs[..i], db)
    requires |start| <= |mid| && sofar == Effect(items, outcome, |start|, mid[|start|..])
    requires now == (if r.Ok? then Entered(sofar, rs[i], db) else sofar)
    requires now == Effect(sofar, outcome, |mid|, after[|mid|..])
    ensures Carried(outcome, start, after, Sequence(RecordPlans(tracker, role, db, account, rs)[..i + 1]), r)
    ensures r.Err? ==> Carried(outcome, start, after, Sequence(RecordPlans(tracker, role, db, account, rs)), r)
    ensures r.Ok? ==> now == Advanced(items, rs[..i + 1], db)
    ensures |start| <= |after| && now == Effect(items, outcome, |start|, after[|start|..])
  {
    CarriedExtends(outcome, mid, after, RecordPlan(tracker, role, db, account, rs[i]), r);
    EffectThen(items, outcome, start, mid, after);
    SequenceStep(outcome, start, mid, after, RecordPlans(tracker, role, db, account, rs), i, r);
    AdvancedSnoc(items, rs, i, db);
  }

  /** The scan was made and accepted, so the handler saw the selection. */
  ghost predicate Scanned(outcome: nat -> Reply, before: seq<Request>, env: Env) {
    Required(env, TrackerTableVar).Ok? && Proceeds(Scan(env[TrackerTableVar]), outcome(|before|))
  }

  /**
   * `lambda_handler`, for the caller's account `account`. `selected` is what the scan answered
   * and `advanced` how many of those records were catalogued before the handler stopped; a run
   * that succeeds catalogues all of them, after which no record is pending.
   */
  method Handle(provider: Provider, table: TrackerTable, env: Env, account: string)
    returns (r: Outcome, ghost selected: seq<TrackerRecord>, ghost advanced: nat)
    requires table.Valid()
    modifies provider, table
    ensures table.Valid()
    ensures Scanned(provider.outcome, old(provider.calls), env) ==> Selected(old(table.items), CatalogPending, selected)
    ensures !Scanned(provider.outcome, old(provider.calls), env) ==> selected == []
    ensures Carried(provider.outcome, old(provider.calls), provider.calls, HandlerPlan(env, selected, account), r)
    ensures advanced <= |selected| && table.items == Advanced(old(table.items), selected[..advanced], CatalogDb(env))
    ensures table.items == Effect(old(table.items), provider.outcome, |old(provider.calls)|, provider.calls[|old(provider.calls)|..])
    ensures r.Ok? ==> advanced == |selected| && forall id | id in table.items :: !Matches(CatalogPending, table.items[id])
    ensures r.Err? ==> advanced < |selected| || selected == []
  {
    ghost var before := provider.calls;
    ghost var items := table.items;
    selected, advanced := [], 0;
    assert selected[..0] == [];
    EffectNone(items, provider.outcome, before);
    var tracker := Required(env, TrackerTableVar);
    if tracker.Err? {
      CarriedToEnd(provider.outcome, before, HandlerPlan(env, selected, account));
      return Err(tracker.error), selected, advanced;
    }
    var scanned := Call(provider, Scan(tracker.value));
    EffectCall(items, provider.outcome, before, before, Scan(tracker.value));
    CarriedSingle(provider.outcome, before, Scan(tracker.value));
    if scanned.Err? {
      CarriedStopped(provider.outcome, before, provider.calls, Calls([Scan(tracker.value)]), scanned,
        AfterScan(env, tracker.value, selected, account));
      return scanned, selected, advanced;
    }
    var rs := table.Select(CatalogPending);
    selected := rs;
    ghost var mid := provider.calls;
    r, advanced := CatalogueSelected(provider, table, env, tracker.value, rs, account);
    CarriedExtends(provider.outcome, mid, provider.calls, AfterScan(env, tracker.value, rs, account), r);
    EffectThen(items, provider.outcome, before, mid, provider.calls);
    CarriedThen(provider.outcome, before, mid, provider.calls, Calls([Scan(tracker.value)]), Pass,
      AfterScan(env, tracker.value, rs, account), r);
  }

  /** The handler after an accepted scan that answered `rs`. */
  method CatalogueSelected(provider: Provider, table: TrackerTable, env: Env, tracker: string,
                           rs: seq<TrackerRecord>, account: string) returns (r: Outcome, ghost advanced: nat)
    requires table.Valid() && Selected(table.items, CatalogPending, rs)
    modifies provider, table
    ensures table.Valid()
    ensures Carried(provider.outcome, old(provider.calls), provider.calls, AfterScan(env, tracker, rs, account), r)
    ensures advanced <= |rs| && table.items == Advanced(old(table.items), rs[..advanced], CatalogDb(env))
    ensures table.items == Effect(old(table.items), provider.outcome, |old(provider.calls)|, provider.calls[|old(provider.calls)|..])
    ensures r.Ok? ==> advanced == |rs| && forall id | id in table.items :: !Matches(CatalogPending, table.items[id])
    ensures r.Err? ==> advanced < |rs| || rs == []
  {
    ghost var before := provider.calls;
    ghost var items := table.items;
    advanced := 0;
    EffectNone(items, provider.outcome, before);
    assert rs[..0] == [];
    var role := Required(env, RoleVar);
    var db := Required(env, CatalogDbVar);
    if rs == [] || role.Err? || db.Err? {
      CarriedToEnd(provider.outcome, before, AfterScan(env, tracker, rs, account));
      assert before + [] == before;
      SelectedEmptyPending(items, rs);
      return (if rs == [] then Pass else if role.Err? then Err(role.error) else Err(db.error)), advanced;
    }
    assert CatalogDb(env) == db.value;
    r, advanced := CatalogueAll(provider, table, tracker, role.value, db.value, account, rs);
    if r.Ok? {
      RecordsNamed(outcome := provider.outcome, before := before, after := provider.calls,
        tracker := tracker, role := role.value, db := db.value, account := account, rs := rs);
      NothingPending(items, rs, db.value);
      assert rs[..advanced] == rs;
      assert table.items == Advanced(items, rs, db.value);
    }
  }

  /** A run of the records that raised nothing found every record's bucket name. */
  lemma RecordsNamed(outcome: nat -> Reply, before: seq<Request>, after: seq<Request>,
                     tracker: string, role: string, db: string, account: string, rs: seq<TrackerRecord>)
    requires Carried(outcome, before, after, Then(Calls([GetCallerIdentity]), Sequence(RecordPlans(tracker, role, db, account, rs))), Pass)
    ensures forall i | 0 <= i < |rs| :: BucketName(rs[i]).Ok?
  {
    var ps := RecordPlans(tracker, role, db, account, rs);
    SequenceFaultless(ps);
    forall i | 0 <= i < |rs| ensures BucketName(rs[i]).Ok? {
      assert ps[i].fault.None?;
    }
  }

  /** An empty scan means no record was pending. */
  lemma SelectedEmptyPending(items: map<string, TrackerRecord>, rs: seq<TrackerRecord>)
    requires Selected(items, CatalogPending, rs)
    ensures rs == [] ==> forall id | id in items :: !Matches(CatalogPending, items[id])
  {
  }
}
