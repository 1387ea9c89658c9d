/**
 * lambda/s3-tag-report: for every catalogued S3 source, the bucket's tags are fetched and, when
 * a required tag is among them, one row is written to the table TAG_REPORT_TABLE_NAME names.
 * The tracker table is only scanned.
 */
module S3TagReport {
  import opened Errors
  import opened Json
  import opened Validation
  import opened TrackerRecords
  import opened Aws
  import opened Tracker
  import opened TagReport

  /** The bucket's TagSet as an accepted `get_bucket_tagging` answers it; [] when it has none. */
  type BucketTags = Value -> seq<Tag>

  function Lookup(bucket: Value): Request {
    S3(GetBucketTagging(bucket))
  }

  /** `_get_bucket_tags` as the handler sees it: a NoSuchTagSet rejection means no tags. */
  function TagsAfter(tagsOf: BucketTags, bucket: Value, reply: Reply): seq<Tag> {
    if reply == Rejected("NoSuchTagSet") then [] else tagsOf(bucket)
  }

  /** `obj["data_source_attrs"]["bucketName"]`. */
  function Bucket(rec: TrackerRecord): Result<Value> {
    Key(rec.dataSourceAttrs, "bucketName")
  }

  /** The turn of the k-th record, whose tag lookup gets `reply`: the bucket name, the lookup, then its report. */
  function RecordPlan(tagTable: string, tagsOf: BucketTags, st: Stamps, rec: TrackerRecord, k: nat, reply: Reply): Plan {
    match Bucket(rec)
    case Err(e) => Raise(e)
    case Ok(bucket) => Then(Calls([Lookup(bucket)]), Report(tagTable, TagsAfter(tagsOf, bucket, reply), rec, st.ids(k), st.times(k)))
  }

  /**
   * The turns of the records `rs`, where `replies` are the answers their lookups got, in order;
   * a record past the last reply is one the handler never reached, and any reply stands in for it.
   */
  function Reports(tagTable: string, tagsOf: BucketTags, st: Stamps, rs: seq<TrackerRecord>, replies: seq<Reply>): (ps: seq<Plan>)
    ensures |ps| == |rs|
    ensures forall i | 0 <= i < |rs| :: ps[i] == RecordPlan(tagTable, tagsOf, st, rs[i], i, if i < |replies| then replies[i] else Accepted)
  {
    seq(|rs|, i requires 0 <= i < |rs| => RecordPlan(tagTable, tagsOf, st, rs[i], i, if i < |replies| then replies[i] else Accepted))
  }

  /**
   * A bucket without tags, whether the lookup was rejected with NoSuchTagSet or answered no
   * TagSet, is skipped: its turn makes the lookup and nothing else.
   */
  lemma UntaggedSkipped(tagTable: string, tagsOf: BucketTags, st: Stamps, rec: TrackerRecord, k: nat, reply: Reply)
    requires rec.dataSourceAttrs.Obj? && "bucketName" in rec.dataSourceAttrs.fields
    requires reply == Rejected("NoSuchTagSet") || tagsOf(rec.dataSourceAttrs.fields["bucketName"]) == []
    ensures RecordPlan(tagTable, tagsOf, st, rec, k, reply) == Calls([Lookup(rec.dataSourceAttrs.fields["bucketName"])])
  {
  }

  /** A record's turn makes its lookup and at most one write, a row of the configured tag table. */
  lemma RecordCalls(tagTable: string, tagsOf: BucketTags, st: Stamps, rec: TrackerRecord, k: nat, reply: Reply)
    ensures forall c | c in RecordPlan(tagTable, tagsOf, st, rec, k, reply).calls ::
      (c.S3? && c.s3.GetBucketTagging?) || (c.Dynamo? && c.dynamo.PutReportRow? && c.dynamo.table == tagTable)
  {
    var bucket := Key(rec.dataSourceAttrs, "bucketName");
    if bucket.Ok? {
      var tags := TagsAfter(tagsOf, bucket.value, reply);
      ReportRow(tagTable, tags, rec, st.ids(k), st.times(k));
    }
  }

  /** What follows an accepted scan that answered `selected`, whose lookups got `replies`. */
  function AfterScan(tagTable: string, tagsOf: BucketTags, st: Stamps, selected: seq<TrackerRecord>, replies: seq<Reply>): Plan {
    if selected == [] then Done else Sequence(Reports(tagTable, tagsOf, st, selected, replies))
  }

  /** What `lambda_handler` does when its scan answers `selected` and its lookups get `replies`. */
  function HandlerPlan(env: Env, tagsOf: BucketTags, st: Stamps, selected: seq<TrackerRecord>, replies: seq<Reply>): Plan {
    match Settings(env)
    case Err(e) => Raise(e)
    case Ok(names) => Then(Calls([Scan(names.0, "s3")]), AfterScan(names.1, tagsOf, st, selected, replies))
  }

  /**
   * The handler writes nothing to the tracker table: its calls are the scan, tag lookups and
   * rows of the configured tag table.
   */
  lemma ReadsTrackerOnly(env: Env, tagsOf: BucketTags, st: Stamps, selected: seq<TrackerRecord>, replies: seq<Reply>)
    ensures forall c | c in HandlerPlan(env, tagsOf, st, selected, replies).calls :: !TrackerWrite(c)
    ensures forall c | c in HandlerPlan(env, tagsOf, st, selected, replies).calls && c.Dynamo? && c.dynamo.PutReportRow? ::
      c.dynamo.table == env[TagTableVar]
  {
    if Settings(env).Ok? && selected != [] {
      var tagTable := env[TagTableVar];
      var ps := Reports(tagTable, tagsOf, st, selected, replies);
      SequenceCalls(ps);
      forall i | 0 <= i < |ps|
        ensures forall c | c in ps[i].calls :: (c.S3? && c.s3.GetBucketTagging?) || (c.Dynamo? && c.dynamo.PutReportRow? && c.dynamo.table == tagTable)
      {
        RecordCalls(tagTable, tagsOf, st, selected[i], i, if i < |replies| then replies[i] else Accepted);
      }
    }
  }

  /** Both table names are required before the scan; an empty scan ends the handler with nothing written. */
  lemma SettingsFirst(env: Env, tagsOf: BucketTags, st: Stamps, selected: seq<TrackerRecord>, replies: seq<Reply>)
    ensures Settings(env).Err? ==> HandlerPlan(env, tagsOf, st, selected, replies) == Raise(Settings(env).error)
    ensures Settings(env).Ok? && selected == [] ==> HandlerPlan(env, tagsOf, st, selected, replies) == Calls([Scan(env[TrackerTableVar], "s3")])
  {
  }

  /**
   * The replies `replies` are what the lookups of the first records of `rs` got: the j-th is the
   * answer to the call at `lookups[j]` of the log, made after call number `from`, which is the
   * lookup of the j-th record's bucket.
   */
  ghost predicate Answered(outcome: nat -> Reply, log: seq<Request>, from: nat, rs: seq<TrackerRecord>,
                           replies: seq<Reply>, lookups: seq<nat>) {
    && |lookups| == |replies| <= |rs|
    && forall j | 0 <= j < |replies| ::
      && from <= lookups[j] < |log| && Bucket(rs[j]).Ok?
      && log[lookups[j]] == Lookup(Bucket(rs[j]).value) && outcome(lookups[j]) == replies[j]
  }

  /** The next record's lookup, when it made one, extends the replies by its answer. */
  lemma AnsweredSnoc(outcome: nat -> Reply, mid: seq<Request>, after: seq<Request>, from: nat, rs: seq<TrackerRecord>,
                     replies: seq<Reply>, lookups: seq<nat>)
    requires Answered(outcome, mid, from, rs, replies, lookups) && |replies| < |rs| && from <= |mid|
    requires |mid| <= |after| && after[..|mid|] == mid
    requires Bucket(rs[|replies|]).Ok? ==> |after| > |mid| && after[|mid|] == Lookup(Bucket(rs[|replies|]).value)
    ensures Bucket(rs[|replies|]).Ok? ==> Answered(outcome, after, from, rs, replies + [outcome(|mid|)], lookups + [|mid|])
    ensures Bucket(rs[|replies|]).Err? ==> Answered(outcome, after, from, rs, replies, lookups)
  {
    forall j | 0 <= j < |replies| ensures after[lookups[j]] == mid[lookups[j]] {
      assert after[..|mid|][lookups[j]] == after[lookups[j]];
    }
  }

  /** The k-th record's turn; its lookup, when it has a bucket name, is the first call it makes. */
  method ReportOne(provider: Provider, tagTable: string, tagsOf: BucketTags, st: Stamps, rec: TrackerRecord, k: nat)
    returns (r: Outcome)
    modifies provider
    ensures Carried(provider.outcome, old(provider.calls), provider.calls,
      RecordPlan(tagTable, tagsOf, st, rec, k, provider.outcome(|old(provider.calls)|)), r)
    ensures Bucket(rec).Ok? ==> |provider.calls| > |old(provider.calls)| && provider.calls[|old(provider.calls)|] == Lookup(Bucket(rec).value)
    ensures Bucket(rec).Err? ==> r.Err?
  {
    ghost var before := provider.calls;
    ghost var p := RecordPlan(tagTable, tagsOf, st, rec, k, provider.outcome(|before|));
    var bucket := Bucket(rec);
    if bucket.Err? {
      CarriedToEnd(provider.outcome, before, p);
      return Err(bucket.error);
    }
    var lookup := Lookup(bucket.value);
    var reply := provider.Invoke(lookup);
    ghost var q := Report(tagTable, TagsAfter(tagsOf, bucket.value, reply), rec, st.ids(k), st.times(k));
    var fetched := Check(lookup, reply);
    if fetched.Err? {
      LeadFailed(provider.outcome, before, lookup, q);
      return fetched;
    }
    var tags := if reply == Rejected("NoSuchTagSet") then [] else tagsOf(bucket.value);
    r := ReportTags(provider, tagTable, tags, rec, st.ids(k), st.times(k));
    LeadProceeded(provider.outcome, before, provider.calls, lookup, q, r);
  }

  /**
   * One more record carried out after the earlier ones went through, its reply (if it made a
   * lookup) added to the replies: the run is carried out one record further, and ends there if it failed.
   */
  lemma ReportStepped(outcome: nat -> Reply, start: seq<Request>, mid: seq<Request>, after: seq<Request>,
                      tagTable: string, tagsOf: BucketTags, st: Stamps, rs: seq<TrackerRecord>,
                      replies: seq<Reply>, more: seq<Reply>, i: nat, r: Outcome)
    requires i < |rs| && |replies| == i
    requires Carried(outcome, start, mid, Sequence(Reports(tagTable, tagsOf, st, rs, replies)[..i]), Pass)
    requires Carried(outcome, mid, after, Reports(tagTable, tagsOf, st, rs, replies + more)[i], r)
    ensures Carried(outcome, start, after, Sequence(Reports(tagTable, tagsOf, st, rs, replies + more)[..i + 1]), r)
    ensures r.Err? ==> Carried(outcome, start, after, Sequence(Reports(tagTable, tagsOf, st, rs, replies + more)), r)
  {
    var ps := Reports(tagTable, tagsOf, st, rs, replies);
    var qs := Reports(tagTable, tagsOf, st, rs, replies + more);
    assert qs[..i] == ps[..i];
    assert qs[..i + 1] == qs[..i] + [qs[i]];
    SequenceSnoc(outcome, start, mid, after, qs[..i], qs[i], r);
    if r.Err? {
      SequenceStopped(outcome, start, after, qs, i + 1, r);
    }
  }

  /**
   * The loop's step: the next record carried out after the earlier ones went through, its reply
   * recorded when it made a lookup.
   */
  lemma ReportAdvanced(outcome: nat -> Reply, start: seq<Request>, mid: seq<Request>, after: seq<Request>,
                       tagTable: string, tagsOf: BucketTags, st: Stamps, rs: seq<TrackerRecord>,
                       replies: seq<Reply>, lookups: seq<nat>, i: nat, r: Outcome)
    returns (replies': seq<Reply>, lookups': seq<nat>)
    requires i < |rs| && |replies| == i
    requires Carried(outcome, start, mid, Sequence(Reports(tagTable, tagsOf, st, rs, replies)[..i]), Pass)
    requires Answered(outcome, mid, |start|, rs, replies, lookups)
    requires Carried(outcome, mid, after, RecordPlan(tagTable, tagsOf, st, rs[i], i, outcome(|mid|)), r)
    requires Bucket(rs[i]).Ok? ==> |after| > |mid| && after[|mid|] == Lookup(Bucket(rs[i]).value)
    requires Bucket(rs[i]).Err? ==> r.Err?
    ensures Answered(outcome, after, |start|, rs, replies', lookups')
    ensures r.Ok? ==> |replies'| == i + 1 && Carried(outcome, start, after, Sequence(Reports(tagTable, tagsOf, st, rs, replies')[..i + 1]), Pass)
    ensures r.Err? ==> Carried(outcome, start, after, Sequence(Reports(tagTable, tagsOf, st, rs, replies')), r)
  {
    var more := if Bucket(rs[i]).Ok? then [outcome(|mid|)] else [];
    ReportStepped(outcome, start, mid, after, tagTable, tagsOf, st, rs, replies, more, i, r);
    CarriedExtends(outcome, start, mid, Sequence(Reports(tagTable, tagsOf, st, rs, replies)[..i]), Pass);
    CarriedExtends(outcome, mid, after, RecordPlan(tagTable, tagsOf, st, rs[i], i, outcome(|mid|)), r);
    AnsweredSnoc(outcome, mid, after, |start|, rs, replies, lookups);
    replies' := replies + more;
    lookups' := if Bucket(rs[i]).Ok? then lookups + [|mid|] else lookups;
  }

  /** The records in scan order; the first failure ends the handler. */
  method ReportAll(provider: Provider, tagTable: string, tagsOf: BucketTags, st: Stamps, rs: seq<TrackerRecord>)
    returns (r: Outcome, ghost replies: seq<Reply>, ghost lookups: seq<nat>)
    modifies provider
    ensures Carried(provider.outcome, old(provider.calls), provider.calls, Sequence(Reports(tagTable, tagsOf, st, rs, replies)), r)
    ensures Answered(provider.outcome, provider.calls, |old(provider.calls)|, rs, replies, lookups)
    ensures r.Ok? ==> |replies| == |rs|
  {
    ghost var start := provider.calls;
    replies, lookups := [], [];
    SequenceStart(provider.outcome, start, Reports(tagTable, tagsOf, st, rs, replies));
    var i := 0;
    while i < |rs|
      invariant 0 <= i <= |rs| && |replies| == i
      invariant Carried(provider.outcome, start, provider.calls, Sequence(Reports(tagTable, tagsOf, st, rs, replies)[..i]), Pass)
      invariant Answered(provider.outcome, provider.calls, |start|, rs, replies, lookups)
    {
      ghost var mid := provider.calls;
      var step := ReportOne(provider, tagTable, tagsOf, st, rs[i], i);
      replies, lookups := ReportAdvanced(provider.outcome, start, mid, provider.calls, tagTable, tagsOf, st, rs, replies, lookups, i, step);
      if step.Err? {
        return step, replies, lookups;
      }
      i := i + 1;
    }
    assert Reports(tagTable, tagsOf, st, rs, replies)[..|rs|] == Reports(tagTable, tagsOf, st, rs, replies);
    r := Pass;
  }

  /**
   * `lambda_handler`, with the buckets' tags `tagsOf` and the row stamps `st`. `selected` is what
   * the scan answered, every catalogued S3 source once; `replies` are the answers its bucket
   * lookups got, at `lookups` in the log. The tracker table is left as it is.
   */
  method Handle(provider: Provider, table: TrackerTable, env: Env, tagsOf: BucketTags, st: Stamps)
    returns (r: Outcome, ghost selected: seq<TrackerRecord>, ghost replies: seq<Reply>, ghost lookups: seq<nat>)
    requires table.Valid()
    modifies provider
    ensures Scanned(provider.outcome, old(provider.calls), env, "s3") ==> Selected(table.items, Catalogued("s3"), selected)
    ensures !Scanned(provider.outcome, old(provider.calls), env, "s3") ==> selected == []
    ensures Carried(provider.outcome, old(provider.calls), provider.calls, HandlerPlan(env, tagsOf, st, selected, replies), r)
    ensures Answered(provider.outcome, provider.calls, |old(provider.calls)|, selected, replies, lookups)
    ensures r.Ok? ==> |replies| == |selected|
  {
    ghost var before := provider.calls;
    selected, replies, lookups := [], [], [];
    var names := Settings(env);
    if names.Err? {
      CarriedToEnd(provider.outcome, before, HandlerPlan(env, tagsOf, st, selected, replies));
      return Err(names.error), selected, replies, lookups;
    }
    var tracker := names.value.0;
    var tagTable := names.value.1;
    var scan := Scan(tracker, "s3");
    var scanned := Call(provider, scan);
    if scanned.Err? {
      LeadFailed(provider.outcome, before, scan, AfterScan(tagTable, tagsOf, st, selected, replies));
      return scanned, selected, replies, lookups;
    }
    var rs := table.Select(Catalogued("s3"));
    selected := rs;
    if rs == [] {
      CarriedToEnd(provider.outcome, provider.calls, Done);
      assert provider.calls + [] == provider.calls;
      LeadProceeded(provider.outcome, before, provider.calls, scan, Done, Pass);
      return Pass, selected, replies, lookups;
    }
    r, replies, lookups := ReportAll(provider, tagTable, tagsOf, st, rs);
    LeadProceeded(provider.outcome, before, provider.calls, scan, AfterScan(tagTable, tagsOf, st, rs, replies), r);
  }
}
