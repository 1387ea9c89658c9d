/** The Glue job tracker table as the handlers change it, call by call. */
module Tracker {
  import opened Errors
  import opened Json
  import opened TrackerRecords
  import opened Aws

  /**
   * The change one tracker call makes, given the service's reply: a conditional put inserts a
   * record whose id is new; an update applies to an existing record when the call is accepted.
   */
  function Step(items: map<string, TrackerRecord>, c: Request, reply: Reply): map<string, TrackerRecord> {
    match c
    case Dynamo(PutTrackerItem(_, rec)) => if reply.Response? && rec.id !in items then items[rec.id := rec] else items
    case Dynamo(UpdateCatalogEntry(_, id, t, d)) =>
      if reply == Accepted && id in items then items[id := WithCatalogEntry(items[id], t, d)] else items
    case Dynamo(UpdateGlueJobCreated(_, id)) =>
      if reply == Accepted && id in items then items[id := WithGlueJob(items[id])] else items
    case _ => items
  }

  /** The table after the calls `calls`, numbered from `from`, were made and answered. */
  ghost function Effect(items: map<string, TrackerRecord>, outcome: nat -> Reply, from: nat, calls: seq<Request>): map<string, TrackerRecord>
    decreases |calls|
  {
    if calls == [] then items
    else Step(Effect(items, outcome, from, calls[..|calls| - 1]), calls[|calls| - 1], outcome(from + |calls| - 1))
  }

  /** Calls other than tracker writes leave the table as it is. */
  predicate TrackerWrite(c: Request) {
    c.Dynamo? && (c.dynamo.PutTrackerItem? || c.dynamo.UpdateCatalogEntry? || c.dynamo.UpdateGlueJobCreated?)
  }

  lemma {:induction false} EffectOfOthers(items: map<string, TrackerRecord>, outcome: nat -> Reply, from: nat, calls: seq<Request>)
    requires forall i | 0 <= i < |calls| :: !TrackerWrite(calls[i])
    ensures Effect(items, outcome, from, calls) == items
    decreases |calls|
  {
    if calls != [] {
      EffectOfOthers(items, outcome, from, calls[..|calls| - 1]);
    }
  }

  /** Carrying out a plan without tracker writes leaves the table as it is. */
  lemma CarriedWritesNothing(items: map<string, TrackerRecord>, outcome: nat -> Reply, before: seq<Request>, after: seq<Request>, p: Plan, r: Outcome)
    requires Carried(outcome, before, after, p, r)
    requires forall c | c in p.calls :: !TrackerWrite(c)
    ensures Effect(items, outcome, |before|, after[|before|..]) == items
  {
    var made := p.calls[..Made(outcome, |before|, p.calls)];
    assert after[|before|..] == made;
    forall i | 0 <= i < |made| ensures !TrackerWrite(made[i]) {
      assert made[i] in p.calls;
    }
    EffectOfOthers(items, outcome, |before|, made);
  }

  /** A plan part without tracker writes that went through, then a carried-out part: the table changes only by the second. */
  lemma CarriedThenEffect(outcome: nat -> Reply, before: seq<Request>, mid: seq<Request>, after: seq<Request>,
                          items: map<string, TrackerRecord>, written: map<string, TrackerRecord>, p: Plan, r1: Outcome, q: Plan, r: Outcome)
    requires Carried(outcome, before, mid, p, r1) && r1.Ok?
    requires forall c | c in p.calls :: !TrackerWrite(c)
    requires Carried(outcome, mid, after, q, r)
    requires written == Effect(items, outcome, |mid|, after[|mid|..])
    ensures Carried(outcome, before, after, Then(p, q), r)
    ensures written == Effect(items, outcome, |before|, after[|before|..])
  {
    CarriedWritesNothing(items, outcome, before, mid, p, r1);
    CarriedThen(outcome, before, mid, after, p, r1, q, r);
    EffectSplit(items, outcome, before, mid, after);
  }

  /** After calls that changed nothing, the effect of a log is the effect of what followed them. */
  lemma EffectSplit(items: map<string, TrackerRecord>, outcome: nat -> Reply, before: seq<Request>, mid: seq<Request>, after: seq<Request>)
    requires |before| <= |mid| <= |after| && mid == after[..|mid|]
    requires Effect(items, outcome, |before|, mid[|before|..]) == items
    ensures Effect(items, outcome, |before|, after[|before|..]) == Effect(items, outcome, |mid|, after[|mid|..])
  {
    SliceSplit(after, |before|, |mid|);
    assert mid[|before|..] == after[|before|..|mid|];
    EffectAppend(items, outcome, |before|, after[|before|..|mid|], after[|mid|..]);
  }

  /** No call made since the log `log`: the table is as it was. */
  lemma EffectNone(items: map<string, TrackerRecord>, outcome: nat -> Reply, log: seq<Request>)
    ensures Effect(items, outcome, |log|, log[|log|..]) == items
  {
    assert log[|log|..] == [];
  }

  /** One more call made after the log `prev`: its step applies to what the earlier calls left. */
  lemma EffectCall(items: map<string, TrackerRecord>, outcome: nat -> Reply, before: seq<Request>, prev: seq<Request>, c: Request)
    requires |before| <= |prev|
    ensures Effect(items, outcome, |before|, (prev + [c])[|before|..]) ==
      Step(Effect(items, outcome, |before|, prev[|before|..]), c, outcome(|prev|))
  {
    var run := (prev + [c])[|before|..];
    assert run[..|run| - 1] == prev[|before|..];
  }

  /** The calls since `before` are those up to `mid`, then those since `mid`: their effects compose. */
  lemma EffectThen(items: map<string, TrackerRecord>, outcome: nat -> Reply, before: seq<Request>, mid: seq<Request>, after: seq<Request>)
    requires |before| <= |mid| <= |after| && after[..|mid|] == mid
    ensures Effect(items, outcome, |before|, after[|before|..]) ==
      Effect(Effect(items, outcome, |before|, mid[|before|..]), outcome, |mid|, after[|mid|..])
  {
    SliceSplit(after, |before|, |mid|);
    assert mid[|before|..] == after[|before|..|mid|];
    EffectAppend(items, outcome, |before|, after[|before|..|mid|], after[|mid|..]);
  }

  /** The effect of one call is its step. */
  lemma EffectSingle(items: map<string, TrackerRecord>, outcome: nat -> Reply, from: nat, c: Request)
    ensures Effect(items, outcome, from, [c]) == Step(items, c, outcome(from))
  {
    assert [c][..0] == [];
  }

  lemma SliceSplit(s: seq<Request>, i: nat, j: nat)
    requires i <= j <= |s|
    ensures s[i..] == s[i..j] + s[j..] && |s[i..j]| == j - i
  {
  }

  /** The effect of two runs of calls is the effect of the second on the table the first left. */
  lemma {:induction false} EffectAppend(items: map<string, TrackerRecord>, outcome: nat -> Reply, from: nat, a: seq<Request>, b: seq<Request>)
    ensures Effect(items, outcome, from, a + b) == Effect(Effect(items, outcome, from, a), outcome, from + |a|, b)
    decreases |b|
  {
    if b == [] {
      assert a + b == a;
    } else {
      assert (a + b)[..|a + b| - 1] == a + b[..|b| - 1];
      EffectAppend(items, outcome, from, a, b[..|b| - 1]);
    }
  }

  /**
   * `rs` is the answer to the selection `sel` over `items`: the stored records that match it,
   * each exactly once, in some order.
   */
  ghost predicate Selected(items: map<string, TrackerRecord>, sel: Selection, rs: seq<TrackerRecord>) {
    && (forall i | 0 <= i < |rs| :: rs[i].id in items && items[rs[i].id] == rs[i] && Matches(sel, rs[i]))
    && (forall id | id in items && Matches(sel, items[id]) :: exists i | 0 <= i < |rs| :: rs[i].id == id)
    && (forall i, j | 0 <= i < j < |rs| :: rs[i].id != rs[j].id)
  }

  /** A table with no record matching a selection answers it with nothing. */
  lemma SelectedNothing(items: map<string, TrackerRecord>, sel: Selection, rs: seq<TrackerRecord>)
    requires Selected(items, sel, rs)
    requires forall id | id in items :: !Matches(sel, items[id])
    ensures rs == []
  {
    FirstSelected(items, sel, rs);
  }

  lemma FirstSelected(items: map<string, TrackerRecord>, sel: Selection, rs: seq<TrackerRecord>)
    requires Selected(items, sel, rs)
    ensures rs != [] ==> rs[0].id in items && Matches(sel, items[rs[0].id])
  {
  }

  /** The tracker table, keyed by `id`. */
  class TrackerTable {
    var items: map<string, TrackerRecord>

    ghost predicate Valid()
      reads this
    {
      forall id | id in items :: items[id].id == id && Staged(items[id])
    }

    constructor ()
      ensures Valid() && items == map[]
    {
      items := map[];
    }

    /** Runs a selection: every matching record once, in an order the table chooses. */
    method Select(sel: Selection) returns (rs: seq<TrackerRecord>)
      requires Valid()
      ensures Selected(items, sel, rs)
    {
      var pending := items.Keys;
      rs := [];
      while pending != {}
        invariant pending <= items.Keys
        invariant forall i | 0 <= i < |rs| :: rs[i].id in items.Keys - pending && items[rs[i].id] == rs[i] && Matches(sel, rs[i])
        invariant forall id | id in items.Keys - pending && Matches(sel, items[id]) :: exists i | 0 <= i < |rs| :: rs[i].id == id
        invariant forall i, j | 0 <= i < j < |rs| :: rs[i].id != rs[j].id
        decreases pending
      {
        var k :| k in pending;
        if Matches(sel, items[k]) {
          ghost var before := rs;
          rs := rs + [items[k]];
          forall id | id in items.Keys - (pending - {k}) && Matches(sel, items[id])
            ensures exists i | 0 <= i < |rs| :: rs[i].id == id
          {
            if id == k {
              assert rs[|rs| - 1].id == id;
            } else {
              var i :| 0 <= i < |before| && before[i].id == id;
              assert rs[i].id == id;
            }
          }
        }
        pending := pending - {k};
      }
    }

    /**
     * `put_item` with `ConditionExpression="attribute_not_exists(id)"`: the record is stored only
     * when the service accepts the call and no record with its id exists; a
     * ConditionalCheckFailedException is swallowed, any other rejection raises Exception.
     */
    method ConditionalPut(table: string, rec: TrackerRecord, reply: Reply) returns (r: Outcome)
      requires Valid() && Staged(rec)
      modifies this
      ensures Valid()
      ensures items == Step(old(items), Dynamo(PutTrackerItem(table, rec)), reply)
      ensures items == if reply.Response? && rec.id !in old(items) then old(items)[rec.id := rec] else old(items)
      ensures r.Ok? <==> reply.Response? || reply.code == "ConditionalCheckFailedException"
      ensures r.Err? ==> r.error == Failure
      ensures r == Check(Dynamo(PutTrackerItem(table, rec)), reply)
    {
      if reply.Rejected? {
        r := if reply.code == "ConditionalCheckFailedException" then Pass else Err(Failure);
      } else {
        if rec.id !in items {
          items := items[rec.id := rec];
        }
        r := Pass;
      }
    }

    /** catalog-creator-s3's `update_item`: applied when the service accepts it, then status-checked. */
    method SetCatalogEntry(tracker: string, id: string, table: Value, db: Value, reply: Reply) returns (r: Outcome)
      requires Valid() && id in items
      modifies this
      ensures Valid()
      ensures items == Step(old(items), Dynamo(UpdateCatalogEntry(tracker, id, table, db)), reply)
      ensures items == if reply == Accepted then old(items)[id := WithCatalogEntry(old(items)[id], table, db)] else old(items)
      ensures r == CheckResponse(reply)
    {
      if reply == Accepted {
        items := items[id := WithCatalogEntry(items[id], table, db)];
      }
      r := CheckResponse(reply);
    }

    /** s3-glue-job-creator's `update_item`; only a catalogued record is ever given a job. */
    method SetGlueJobCreated(tracker: string, id: string, reply: Reply) returns (r: Outcome)
      requires Valid() && id in items && items[id].dataCatalogEntry
      modifies this
      ensures Valid()
      ensures items == Step(old(items), Dynamo(UpdateGlueJobCreated(tracker, id)), reply)
      ensures items == if reply == Accepted then old(items)[id := WithGlueJob(old(items)[id])] else old(items)
      ensures r == CheckResponse(reply)
    {
      if reply == Accepted {
        items := items[id := WithGlueJob(items[id])];
      }
      r := CheckResponse(reply);
    }
  }
}
