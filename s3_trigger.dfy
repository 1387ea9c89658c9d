/**
 * lambda/s3-trigger: a new S3 bucket is routed by its tags. A `gdpr-scan=true` tag sends the
 * bucket to the Glue tracking queue once; each `glue-custom-entity=true` tag sends it to the
 * custom-entity queue.
 */
module S3Trigger {
  import opened Errors
  import opened Json
  import opened Validation
  import opened Aws

  const TrackingQueueVar := "GLUE_TRACKING_QUEUE_URL"
  const CustomEntityQueueVar := "GLUE_CUSTOM_ENTITY_QUEUE_URL"

  /** The `requestParameters` of an accepted event carry a truthy `bucketName`. */
  ghost predicate ValidEvent(event: Value) {
    && EventMatches(event, "aws.s3", "CreateBucket", "requestParameters")
    && var rp := event.fields["detail"].fields["requestParameters"];
    && rp.Obj? && "bucketName" in rp.fields && Truthy(rp.fields["bucketName"])
  }

  /** `_extract_valid_event`: the request parameters of a CreateBucket call reported by aws.s3. */
  function ExtractValidEvent(event: Value): (r: Result<Value>)
    ensures r.Ok? <==> ValidEvent(event)
    ensures r.Ok? ==> r.value == event.fields["detail"].fields["requestParameters"]
    ensures r.Ok? ==> r.value.Obj? && "bucketName" in r.value.fields
  {
    var rp :- ExtractDetail(event, "aws.s3", "CreateBucket", "requestParameters");
    var _ :- CheckMissingField(rp, "bucketName");
    Ok(rp)
  }

  predicate IsScanTag(t: Tag) {
    t.key == "gdpr-scan" && t.value == "true"
  }

  predicate IsCustomEntityTag(t: Tag) {
    t.key == "glue-custom-entity" && t.value == "true"
  }

  /** Some tag asks for a scan. */
  predicate HasScanTag(tags: seq<Tag>)
    decreases |tags|
  {
    tags != [] && (HasScanTag(tags[..|tags| - 1]) || IsScanTag(tags[|tags| - 1]))
  }

  /** The number of custom-entity tags. */
  function CustomEntityTags(tags: seq<Tag>): nat
    decreases |tags|
  {
    if tags == [] then 0
    else CustomEntityTags(tags[..|tags| - 1]) + if IsCustomEntityTag(tags[|tags| - 1]) then 1 else 0
  }

  /** The message both queues receive. */
  function Message(requestParameters: Value): Value {
    Obj(map["data_source_type" := Str("s3"), "data_source_attrs" := requestParameters])
  }

  /** The sends of the tag loop: one to the custom-entity queue per custom-entity tag, in tag order. */
  function CustomSends(tags: seq<Tag>, queue: string, msg: Value): seq<Request>
    decreases |tags|
  {
    if tags == [] then []
    else CustomSends(tags[..|tags| - 1], queue, msg) + if IsCustomEntityTag(tags[|tags| - 1]) then [Sqs(SendMessage(queue, msg))] else []
  }

  /** All sends for a tagged bucket: the custom-entity ones, then the tracking one if some tag asks for a scan. */
  function Routing(tags: seq<Tag>, tracking: string, custom: string, msg: Value): seq<Request> {
    CustomSends(tags, custom, msg) + if HasScanTag(tags) then [Sqs(SendMessage(tracking, msg))] else []
  }

  /**
   * What `lambda_handler` does when every call goes through. `tags` is the bucket's TagSet and
   * `noTagSet` says the tagging call answered NoSuchTagSet.
   */
  function HandlerPlan(event: Value, env: Env, tags: seq<Tag>, noTagSet: bool): Plan {
    match ExtractValidEvent(event)
    case Err(e) => Raise(e)
    case Ok(rp) =>
      match Required(env, TrackingQueueVar)
      case Err(e) => Raise(e)
      case Ok(tracking) =>
        match Required(env, CustomEntityQueueVar)
        case Err(e) => Raise(e)
        case Ok(custom) => TaggedPlan(rp, tracking, custom, tags, noTagSet)
  }

  /** Once event and settings check out: read the bucket's tags, then route it unless it has none. */
  function TaggedPlan(rp: Value, tracking: string, custom: string, tags: seq<Tag>, noTagSet: bool): Plan
    requires rp.Obj? && "bucketName" in rp.fields
  {
    var lookup := [S3(GetBucketTagging(rp.fields["bucketName"]))];
    if noTagSet || tags == [] then Calls(lookup) else Calls(lookup + Routing(tags, tracking, custom, Message(rp)))
  }

  lemma {:induction false} CustomSendsPrefix(tags: seq<Tag>, queue: string, msg: Value, i: nat)
    requires i <= |tags|
    ensures |CustomSends(tags[..i], queue, msg)| <= |CustomSends(tags, queue, msg)|
    ensures CustomSends(tags, queue, msg)[..|CustomSends(tags[..i], queue, msg)|] == CustomSends(tags[..i], queue, msg)
    decreases |tags| - i
  {
    if i == |tags| {
      assert tags[..i] == tags;
    } else {
      var init := tags[..|tags| - 1];
      assert init[..i] == tags[..i];
      CustomSendsPrefix(init, queue, msg, i);
    }
  }

  /** The custom-entity queue receives the message once per custom-entity tag, and no other queue receives anything. */
  lemma {:induction false} CustomSendsMessages(tags: seq<Tag>, queue: string, msg: Value, url: string)
    ensures Messages(CustomSends(tags, queue, msg), url) == if url == queue then seq(CustomEntityTags(tags), _ => msg) else []
    decreases |tags|
  {
    if tags != [] {
      var init := tags[..|tags| - 1];
      CustomSendsMessages(init, queue, msg, url);
      var last := if IsCustomEntityTag(tags[|tags| - 1]) then [Sqs(SendMessage(queue, msg))] else [];
      MessagesAppend(CustomSends(init, queue, msg), last, url);
      if last != [] {
        MessagesOfCall(last[0], url);
      }
    }
  }

  /**
   * For a tagged bucket and two distinct queues: the tracking queue receives the message
   * exactly once when some tag is `gdpr-scan=true` and never otherwise; the custom-entity
   * queue receives it once per `glue-custom-entity=true` tag, whether or not the scan tag is there.
   */
  lemma RoutingMessages(tags: seq<Tag>, tracking: string, custom: string, msg: Value)
    requires tracking != custom
    ensures Messages(Routing(tags, tracking, custom, msg), tracking) == if HasScanTag(tags) then [msg] else []
    ensures Messages(Routing(tags, tracking, custom, msg), custom) == seq(CustomEntityTags(tags), _ => msg)
  {
    var tail := if HasScanTag(tags) then [Sqs(SendMessage(tracking, msg))] else [];
    MessagesAppend(CustomSends(tags, custom, msg), tail, tracking);
    MessagesAppend(CustomSends(tags, custom, msg), tail, custom);
    CustomSendsMessages(tags, custom, msg, tracking);
    CustomSendsMessages(tags, custom, msg, custom);
    if tail != [] {
      MessagesOfCall(tail[0], tracking);
      MessagesOfCall(tail[0], custom);
    }
  }

  /**
   * The whole handler on a valid event with both queues configured and a tagged bucket: it
   * looks up the bucket's tags first, then routes the message as `RoutingMessages` says.
   */
  lemma HandlerRouting(event: Value, env: Env, tags: seq<Tag>)
    requires ExtractValidEvent(event).Ok?
    requires Required(env, TrackingQueueVar).Ok? && Required(env, CustomEntityQueueVar).Ok?
    requires env[TrackingQueueVar] != env[CustomEntityQueueVar]
    requires tags != []
    ensures var p := HandlerPlan(event, env, tags, false);
      var rp := event.fields["detail"].fields["requestParameters"];
      && p.fault.None?
      && p.calls[0] == S3(GetBucketTagging(rp.fields["bucketName"]))
      && Messages(p.calls, env[TrackingQueueVar]) == (if HasScanTag(tags) then [Message(rp)] else [])
      && Messages(p.calls, env[CustomEntityQueueVar]) == seq(CustomEntityTags(tags), _ => Message(rp))
  {
    var rp := ExtractValidEvent(event).value;
    var tracking, custom := env[TrackingQueueVar], env[CustomEntityQueueVar];
    var lookup := [S3(GetBucketTagging(rp.fields["bucketName"]))];
    var routing := Routing(tags, tracking, custom, Message(rp));
    assert HandlerPlan(event, env, tags, false).calls == lookup + routing;
    RoutingMessages(tags, tracking, custom, Message(rp));
    MessagesAppend(lookup, routing, tracking);
    MessagesAppend(lookup, routing, custom);
    MessagesOfCall(lookup[0], tracking);
    MessagesOfCall(lookup[0], custom);
  }

  /** Every message the handler sends, to either queue, is the same `{data_source_type: "s3", data_source_attrs: requestParameters}`. */
  lemma {:induction false} CustomSendsCarryMessage(tags: seq<Tag>, queue: string, msg: Value)
    ensures forall c | c in CustomSends(tags, queue, msg) :: c == Sqs(SendMessage(queue, msg))
    decreases |tags|
  {
    if tags != [] {
      CustomSendsCarryMessage(tags[..|tags| - 1], queue, msg);
    }
  }

  lemma HandlerMessages(event: Value, env: Env, tags: seq<Tag>, noTagSet: bool)
    requires ExtractValidEvent(event).Ok?
    ensures forall c | c in HandlerPlan(event, env, tags, noTagSet).calls && c.Sqs? && c.sqs.SendMessage? ::
      c.sqs.body == Message(event.fields["detail"].fields["requestParameters"])
  {
    var rp := ExtractValidEvent(event).value;
    if Required(env, TrackingQueueVar).Ok? && Required(env, CustomEntityQueueVar).Ok? {
      CustomSendsCarryMessage(tags, Required(env, CustomEntityQueueVar).value, Message(rp));
    }
  }

  /** Both queue URLs are checked before the tags are looked up: without either, no call is made. */
  lemma ConfigurationFirst(event: Value, env: Env, tags: seq<Tag>, noTagSet: bool)
    requires ExtractValidEvent(event).Ok?
    requires Required(env, TrackingQueueVar).Err? || Required(env, CustomEntityQueueVar).Err?
    ensures HandlerPlan(event, env, tags, noTagSet).calls == []
    ensures HandlerPlan(event, env, tags, noTagSet).fault ==
      Some(MissingEnvironmentVariable(if Required(env, TrackingQueueVar).Err? then TrackingQueueVar else CustomEntityQueueVar))
  {
  }

  /** A bucket without tags (NoSuchTagSet, or an empty TagSet) puts nothing on either queue. */
  lemma UntaggedBucketSendsNothing(event: Value, env: Env, tags: seq<Tag>, noTagSet: bool, url: string)
    requires noTagSet || tags == []
    ensures Messages(HandlerPlan(event, env, tags, noTagSet).calls, url) == []
    ensures HandlerPlan(event, env, tags, noTagSet).fault.None? ==> |HandlerPlan(event, env, tags, noTagSet).calls| == 1
  {
    var p := HandlerPlan(event, env, tags, noTagSet);
    if p.calls != [] {
      MessagesOfCall(p.calls[0], url);
      assert p.calls == [p.calls[0]];
    }
  }

  /** One more tag of the loop adds at most its own send and its own scan request. */
  lemma TagStep(tags: seq<Tag>, custom: string, msg: Value, i: nat)
    requires i < |tags|
    ensures CustomSends(tags[..i + 1], custom, msg) ==
      CustomSends(tags[..i], custom, msg) + if IsCustomEntityTag(tags[i]) then [Sqs(SendMessage(custom, msg))] else []
    ensures HasScanTag(tags[..i + 1]) <==> HasScanTag(tags[..i]) || IsScanTag(tags[i])
  {
    assert tags[..i + 1][..i] == tags[..i];
  }

  /** A custom-entity send that fails ends the routing with its error. */
  lemma FailedCustomSend(outcome: nat -> Reply, before: seq<Request>, tags: seq<Tag>, custom: string, msg: Value, i: nat)
    requires i < |tags| && IsCustomEntityTag(tags[i])
    requires AllProceed(outcome, |before|, CustomSends(tags[..i], custom, msg))
    requires !Proceeds(Sqs(SendMessage(custom, msg)), outcome(|before| + |CustomSends(tags[..i], custom, msg)|))
    ensures var done := CustomSends(tags[..i], custom, msg);
      Carried(outcome, before, before + done + [Sqs(SendMessage(custom, msg))], Calls(CustomSends(tags, custom, msg)),
        Check(Sqs(SendMessage(custom, msg)), outcome(|before| + |done|)))
  {
    var done := CustomSends(tags[..i], custom, msg);
    assert tags[..i + 1][..i] == tags[..i];
    assert CustomSends(tags[..i + 1], custom, msg) == done + [Sqs(SendMessage(custom, msg))];
    CustomSendsPrefix(tags, custom, msg, i + 1);
    var plan := Calls(CustomSends(tags, custom, msg));
    assert plan.calls[..|done| + 1] == done + [Sqs(SendMessage(custom, msg))];
    CarriedToFailure(outcome, before, done, Sqs(SendMessage(custom, msg)), plan);
  }

  /** `lambda_handler` with the bucket's TagSet `tags`. */
  method Handle(provider: Provider, env: Env, event: Value, tags: seq<Tag>) returns (r: Outcome)
    modifies provider
    ensures Carried(provider.outcome, old(provider.calls), provider.calls,
      HandlerPlan(event, env, tags, provider.outcome(|old(provider.calls)|) == Rejected("NoSuchTagSet")), r)
  {
    ghost var before := provider.calls;
    ghost var plan := HandlerPlan(event, env, tags, provider.outcome(|before|) == Rejected("NoSuchTagSet"));
    var valid := ExtractValidEvent(event);
    if valid.Err? {
      CarriedToEnd(provider.outcome, before, plan);
      return Err(valid.error);
    }
    var tracking := Required(env, TrackingQueueVar);
    if tracking.Err? {
      CarriedToEnd(provider.outcome, before, plan);
      return Err(tracking.error);
    }
    var custom := Required(env, CustomEntityQueueVar);
    if custom.Err? {
      CarriedToEnd(provider.outcome, before, plan);
      return Err(custom.error);
    }
    r := LookupAndRoute(provider, valid.value, tracking.value, custom.value, tags);
  }

  /** The tag lookup, then the routing of a tagged bucket. */
  method LookupAndRoute(provider: Provider, rp: Value, tracking: string, custom: string, tags: seq<Tag>)
    returns (r: Outcome)
    requires rp.Obj? && "bucketName" in rp.fields
    modifies provider
    ensures Carried(provider.outcome, old(provider.calls), provider.calls,
      TaggedPlan(rp, tracking, custom, tags, provider.outcome(|old(provider.calls)|) == Rejected("NoSuchTagSet")), r)
  {
    ghost var before := provider.calls;
    ghost var plan := TaggedPlan(rp, tracking, custom, tags, provider.outcome(|before|) == Rejected("NoSuchTagSet"));
    var lookup := S3(GetBucketTagging(rp.fields["bucketName"]));
    var reply := provider.Invoke(lookup);
    var fetched := Check(lookup, reply);
    if fetched.Err? {
      CarriedToFailure(provider.outcome, before, [], lookup, plan);
      return fetched;
    }
    AllProceedSnoc(provider.outcome, |before|, [], lookup);
    if reply == Rejected("NoSuchTagSet") || tags == [] {
      CarriedToEnd(provider.outcome, before, plan);
      return Pass;
    }
    var sent := Route(provider, tags, tracking, custom, Message(rp));
    CarriedAfter(provider.outcome, before, [lookup], provider.calls, Calls(Routing(tags, tracking, custom, Message(rp))), sent);
    r := sent;
  }

  /** The tag loop of `lambda_handler` and the tracking send after it. */
  method Route(provider: Provider, tags: seq<Tag>, tracking: string, custom: string, msg: Value) returns (r: Outcome)
    modifies provider
    ensures Carried(provider.outcome, old(provider.calls), provider.calls, Calls(Routing(tags, tracking, custom, msg)), r)
  {
    ghost var before := provider.calls;
    var scan;
    r, scan := SendCustom(provider, tags, custom, msg);
    ghost var mid := provider.calls;
    ghost var rest := Calls(if scan then [Sqs(SendMessage(tracking, msg))] else []);
    if r.Err? {
      CarriedStopped(provider.outcome, before, mid, Calls(CustomSends(tags, custom, msg)), r, rest);
      return;
    }
    if scan {
      r := Call(provider, Sqs(SendMessage(tracking, msg)));
      CarriedSingle(provider.outcome, mid, Sqs(SendMessage(tracking, msg)));
    } else {
      assert (rest.calls)[..0] == [];
    }
    CarriedThen(provider.outcome, before, mid, provider.calls, Calls(CustomSends(tags, custom, msg)), Pass, rest, r);
  }

  /** The tag loop: a custom-entity send per custom-entity tag; whether some tag asks for a scan. */
  method SendCustom(provider: Provider, tags: seq<Tag>, custom: string, msg: Value) returns (r: Outcome, scan: bool)
    modifies provider
    ensures Carried(provider.outcome, old(provider.calls), provider.calls, Calls(CustomSends(tags, custom, msg)), r)
    ensures scan == HasScanTag(tags)
  {
    ghost var before := provider.calls;
    ghost var sofar: seq<Request> := [];
    scan := false;
    var i := 0;
    while i < |tags|
      invariant 0 <= i <= |tags|
      invariant sofar == CustomSends(tags[..i], custom, msg)
      invariant provider.calls == before + sofar
      invariant AllProceed(provider.outcome, |before|, sofar)
      invariant scan <==> HasScanTag(tags[..i])
    {
      TagStep(tags, custom, msg, i);
      if IsScanTag(tags[i]) {
        scan := true;
      }
      if IsCustomEntityTag(tags[i]) {
        var send := Sqs(SendMessage(custom, msg));
        var sent := Call(provider, send);
        if sent.Err? {
          FailedCustomSend(provider.outcome, before, tags, custom, msg, i);
          return sent, HasScanTag(tags);
        }
        AllProceedSnoc(provider.outcome, |before|, sofar, send);
        sofar := sofar + [send];
      }
      i := i + 1;
    }
    assert tags[..|tags|] == tags;
    CarriedToEnd(provider.outcome, before, Calls(CustomSends(tags, custom, msg)));
    r := Pass;
  }
}
