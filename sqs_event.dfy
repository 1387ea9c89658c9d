/**
 * The SQS side of the queue-fed handlers (glue-tracking-initial, rds-glue-initial, rds-ddl-init):
 * reading the receipt of the first record, deleting the message, and decoding its body.
 */
module SqsEvent {
  import opened Errors
  import opened Json
  import opened Text
  import opened Validation
  import opened Aws

  datatype MessageAttributes = MessageAttributes(messageId: Value, receiptHandle: Value)

  /**
   * `records[0]` on a truthy value: the first item of a list or the first character of a
   * string; a dictionary has no key 0, and a number or a boolean cannot be subscripted.
   */
  function First(records: Value): (r: Result<Value>)
    requires Truthy(records)
    ensures records.Arr? ==> r == Ok(records.items[0])
    ensures records.Str? ==> r == Ok(Str([records.s[0]]))
    ensures records.Obj? ==> r == Err(KeyError("0"))
    ensures records.Num? || records.Bool? ==> r == Err(TypeError)
  {
    Head(records)
  }

  /** The event carries a truthy `Records` field. */
  ghost predicate HasRecords(event: Value) {
    event.Obj? && "Records" in event.fields && Truthy(event.fields["Records"])
  }

  /** The first record, when `Records` is a non-empty list of dictionaries. */
  ghost predicate HasRecordObject(event: Value) {
    HasRecords(event) && event.fields["Records"].Arr? && event.fields["Records"].items[0].Obj?
  }

  /** `records[0]` is there but is not a dictionary: a character of a string, or a list item of another kind. */
  ghost predicate FirstNotRecord(event: Value) {
    && HasRecords(event)
    && (event.fields["Records"].Str? || (event.fields["Records"].Arr? && !event.fields["Records"].items[0].Obj?))
  }

  ghost function FirstRecord(event: Value): map<string, Value>
    requires HasRecordObject(event)
  {
    event.fields["Records"].items[0].fields
  }

  /** `first_record.get(k)`. */
  ghost function RecordField(event: Value, k: string): Value
    requires HasRecordObject(event)
  {
    if k in FirstRecord(event) then FirstRecord(event)[k] else Null
  }

  /**
   * `_get_sqs_message_attributes`: an event without records is not an SQS message (None);
   * otherwise the first record must carry a truthy receiptHandle and messageId.
   */
  function MessageAttributesOf(event: Value): (r: Result<Option<MessageAttributes>>)
    ensures r == Ok(None) <==> event.Obj? && !HasRecords(event)
    ensures r.Ok? && r.value.Some? ==>
      && HasRecordObject(event)
      && Truthy(RecordField(event, "receiptHandle")) && Truthy(RecordField(event, "messageId"))
      && r.value.value == MessageAttributes(RecordField(event, "messageId"), RecordField(event, "receiptHandle"))
    ensures HasRecordObject(event) ==>
      (r.Ok? <==> Truthy(RecordField(event, "receiptHandle")) && Truthy(RecordField(event, "messageId")))
    ensures HasRecordObject(event) && r.Err? ==> r.error == MalformedEvent
    ensures !event.Obj? ==> r == Err(AttributeError)
    ensures HasRecords(event) && event.fields["Records"].Obj? ==> r == Err(KeyError("0"))
    ensures HasRecords(event) && (event.fields["Records"].Num? || event.fields["Records"].Bool?) ==> r == Err(TypeError)
    ensures FirstNotRecord(event) ==> r == Err(AttributeError)
  {
    var records :- Get(event, "Records");
    if !Truthy(records) then Ok(None)
    else
      var first :- First(records);
      var receipt :- Get(first, "receiptHandle");
      var id := Field(first, "messageId");
      if !Truthy(receipt) then Err(MalformedEvent)
      else if !Truthy(id) then Err(MalformedEvent)
      else Ok(Some(MessageAttributes(id, receipt)))
  }

  /** `event.get("test_event", "").lower() == "true"`. */
  ghost predicate IsTestEvent(event: Value) {
    event.Obj? && "test_event" in event.fields && event.fields["test_event"].Str?
    && Lower(event.fields["test_event"].s) == "true"
  }

  /** A dictionary event that is not a test event and whose `test_event`, if any, is a string. */
  ghost predicate QueueEvent(event: Value) {
    event.Obj? && !IsTestEvent(event) && (!("test_event" in event.fields) || event.fields["test_event"].Str?)
  }

  /**
   * `_get_message_body`: a test event is its own body; otherwise the first record's `body`
   * must be present and decode as JSON. `decode` stands for `json.loads`, None for a decoding error.
   */
  function MessageBody(event: Value, decode: string -> Option<Value>): (r: Result<Value>)
    ensures IsTestEvent(event) ==> r == Ok(event)
    ensures r.Ok? && !IsTestEvent(event) ==>
      && HasRecordObject(event) && RecordField(event, "body").Str?
      && RecordField(event, "body").s != []
      && decode(RecordField(event, "body").s) == Some(r.value)
    ensures !event.Obj? ==> r == Err(AttributeError)
    ensures event.Obj? && "test_event" in event.fields && !event.fields["test_event"].Str? ==> r == Err(AttributeError)
    ensures QueueEvent(event) && !HasRecords(event) ==> r == Err(MalformedEvent)
    ensures QueueEvent(event) && HasRecords(event) && event.fields["Records"].Obj? ==> r == Err(KeyError("0"))
    ensures QueueEvent(event) && HasRecords(event) && (event.fields["Records"].Num? || event.fields["Records"].Bool?) ==> r == Err(TypeError)
    ensures QueueEvent(event) && FirstNotRecord(event) ==> r == Err(MalformedEvent)
  {
    var _ :- Get(event, "test_event");
    var flag := if "test_event" in event.fields then event.fields["test_event"] else Str("");
    if !flag.Str? then Err(AttributeError)
    else if Lower(flag.s) == "true" then Ok(event)
    else
      var records := Field(event, "Records");
      if !Truthy(records) then Err(MalformedEvent)
      else
        var first :- First(records);
        if !first.Obj? then Err(MalformedEvent)
        else
          var body := Field(first, "body");
          if !Truthy(body) then Err(MalformedEvent)
          else if !body.Str? then Err(TypeError)
          else
            match decode(body.s)
            case None => Err(MalformedEvent)
            case Some(v) => Ok(v)
  }

  /**
   * A test event (with no `Records`) is processed without touching the queue,
   * and a queue event with no records can neither be deleted nor read.
   */
  lemma TestEventBypassesQueue(event: Value, decode: string -> Option<Value>)
    requires event.Obj? && !HasRecords(event)
    ensures MessageAttributesOf(event) == Ok(None)
    ensures IsTestEvent(event) ==> MessageBody(event, decode) == Ok(event)
    ensures !IsTestEvent(event) ==> MessageBody(event, decode).Err?
  {
  }

  /** The calls of the prologue: the deletion of the received message, when there is one to delete. */
  function ReceivePlan(env: Env, event: Value): Plan {
    match MessageAttributesOf(event)
    case Err(e) => Raise(e)
    case Ok(None) => Done
    case Ok(Some(attrs)) =>
      match Required(env, "SQS_QUEUE_URL")
      case Err(e) => Raise(e)
      case Ok(queue) => Calls([Sqs(DeleteMessage(queue, attrs.receiptHandle))])
  }

  /** The prologue makes no call but the deletion. */
  lemma ReceiveOnlyDeletes(env: Env, event: Value)
    ensures forall c | c in ReceivePlan(env, event).calls :: c.Sqs? && c.sqs.DeleteMessage?
    ensures |ReceivePlan(env, event).calls| <= 1
  {
  }

  /** The body a carried-out prologue goes on with: the message body, unless the prologue failed. */
  function Received(run: Outcome, event: Value, decode: string -> Option<Value>): Result<Value> {
    if run.Err? then Err(run.error) else MessageBody(event, decode)
  }

  /** A prologue that produced a body, followed by a carried-out `q`, carries out both. */
  lemma ReceivedThen(outcome: nat -> Reply, before: seq<Request>, mid: seq<Request>, after: seq<Request>,
                     env: Env, event: Value, decode: string -> Option<Value>, q: Plan, r: Outcome)
    requires Carried(outcome, before, mid, ReceivePlan(env, event), Run(outcome, |before|, ReceivePlan(env, event)))
    requires Received(Run(outcome, |before|, ReceivePlan(env, event)), event, decode).Ok?
    requires Carried(outcome, mid, after, q, r)
    ensures Carried(outcome, before, after, Then(ReceivePlan(env, event), q), r)
  {
    CarriedThen(outcome, before, mid, after, ReceivePlan(env, event), Run(outcome, |before|, ReceivePlan(env, event)), q, r);
  }

  /** A prologue without a body ends the handler with its error, when what follows raises the body's error. */
  lemma ReceivedNothing(outcome: nat -> Reply, before: seq<Request>, mid: seq<Request>,
                        env: Env, event: Value, decode: string -> Option<Value>, q: Plan)
    requires Carried(outcome, before, mid, ReceivePlan(env, event), Run(outcome, |before|, ReceivePlan(env, event)))
    requires Received(Run(outcome, |before|, ReceivePlan(env, event)), event, decode).Err?
    requires Run(outcome, |before|, ReceivePlan(env, event)).Ok? ==> q == Raise(MessageBody(event, decode).error)
    ensures Carried(outcome, before, mid, Then(ReceivePlan(env, event), q),
      Err(Received(Run(outcome, |before|, ReceivePlan(env, event)), event, decode).error))
  {
    var run := Run(outcome, |before|, ReceivePlan(env, event));
    if run.Err? {
      CarriedStopped(outcome, before, mid, ReceivePlan(env, event), run, q);
    } else {
      CarriedToEnd(outcome, mid, q);
      assert mid + q.calls == mid;
      CarriedThen(outcome, before, mid, mid, ReceivePlan(env, event), run, q, Err(MessageBody(event, decode).error));
    }
  }

  /**
   * What a carried-out prologue did, case by case: a malformed receipt or a missing queue URL
   * raises without a call; an event without records goes straight to its body; otherwise the
   * message is deleted, and only an accepted deletion goes on to decode the body.
   */
  lemma ReceiveCases(outcome: nat -> Reply, before: seq<Request>, after: seq<Request>, env: Env, event: Value, decode: string -> Option<Value>)
    requires Carried(outcome, before, after, ReceivePlan(env, event), Run(outcome, |before|, ReceivePlan(env, event)))
    ensures var r := Received(Run(outcome, |before|, ReceivePlan(env, event)), event, decode);
      && (MessageAttributesOf(event).Err? ==> after == before && r == Err(MessageAttributesOf(event).error))
      && (MessageAttributesOf(event) == Ok(None) ==> after == before && r == MessageBody(event, decode))
      && (MessageAttributesOf(event).Ok? && MessageAttributesOf(event).value.Some? ==>
        var receipt := MessageAttributesOf(event).value.value.receiptHandle;
        var queue := Required(env, "SQS_QUEUE_URL");
        if queue.Err? then after == before && r == Err(queue.error)
        else
          && after == before + [Sqs(DeleteMessage(queue.value, receipt))]
          && r == if outcome(|before|) == Accepted then MessageBody(event, decode) else Err(CheckStatus(outcome(|before|)).error))
  {
    var p := ReceivePlan(env, event);
    if |p.calls| == 1 {
      var d := p.calls[0];
      assert p.calls == [d];
      CarriedSingle(outcome, before, d);
      assert Check(d, outcome(|before|)) == CheckStatus(outcome(|before|));
    }
  }

  /**
   * The prologue the queue-fed handlers share: read the receipt, delete the message from
   * `SQS_QUEUE_URL` when there is one, and only then decode the body. A body that fails to
   * decode is therefore reported after its message has already left the queue.
   */
  method Receive(provider: Provider, env: Env, event: Value, decode: string -> Option<Value>) returns (r: Result<Value>)
    modifies provider
    ensures var run := Run(provider.outcome, |old(provider.calls)|, ReceivePlan(env, event));
      && Carried(provider.outcome, old(provider.calls), provider.calls, ReceivePlan(env, event), run)
      && r == Received(run, event, decode)
  {
    ghost var before := provider.calls;
    var attrs := MessageAttributesOf(event);
    if attrs.Err? {
      CarriedToEnd(provider.outcome, before, ReceivePlan(env, event));
      return Err(attrs.error);
    }
    if attrs.value.Some? {
      var queue := Required(env, "SQS_QUEUE_URL");
      if queue.Err? {
        CarriedToEnd(provider.outcome, before, ReceivePlan(env, event));
        return Err(queue.error);
      }
      var delete := Sqs(DeleteMessage(queue.value, attrs.value.value.receiptHandle));
      var reply := provider.Invoke(delete);
      CarriedSingle(provider.outcome, before, delete);
      var deleted := CheckStatus(reply);
      if deleted.Err? {
        return Err(deleted.error);
      }
    } else {
      CarriedToEnd(provider.outcome, before, ReceivePlan(env, event));
    }
    r := MessageBody(event, decode);
  }
}
