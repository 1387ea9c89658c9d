/**
 * The Secrets Manager lookup of a cluster's secret: the secrets are listed, and each one's
 * value is read to compare the `dbClusterIdentifier` in it with the cluster. rds-ddl-init and
 * rds-ddl-change stop at the first secret that matches (this module); rds-glue-initial reads
 * them all and keeps the last match (module RdsGlueInitial).
 */
module SecretSearch {
  import opened Errors
  import opened Json
  import opened Validation
  import opened Aws

  /** What Secrets Manager holds: the `list_secrets` response, and the `get_secret_value` response for each SecretId. */
  datatype SecretStore = SecretStore(listing: Value, values: Value -> Value)

  /**
   * The secrets `for secret in resp["SecretList"]` goes through, after
   * `_check_missing_field(resp, "SecretList")`: the items of the list. Iterating a string or a
   * dictionary yields strings, on which the loop's first `.get` fails; a number is not iterable.
   */
  function Listed(listing: Value): (r: Result<seq<Value>>)
    ensures r.Ok? <==> CheckMissingField(listing, "SecretList").Ok? && listing.fields["SecretList"].Arr?
    ensures r.Ok? ==> r.value == listing.fields["SecretList"].items && r.value != []
    ensures CheckMissingField(listing, "SecretList").Err? ==> r == Err(CheckMissingField(listing, "SecretList").error)
  {
    var _ :- CheckMissingField(listing, "SecretList");
    match listing.fields["SecretList"]
    case Arr(items) => Ok(items)
    case Str(_) => Err(AttributeError)
    case Obj(_) => Err(AttributeError)
    case _ => Err(TypeError)
  }

  /**
   * `json.loads(resp["SecretString"])` after `_check_missing_field(resp, "SecretString")`;
   * `decode` stands for `json.loads` (None: not JSON), which only accepts text.
   */
  function SecretDocument(resp: Value, decode: string -> Option<Value>): (r: Result<Option<Value>>)
    ensures r.Ok? <==> CheckMissingField(resp, "SecretString").Ok? && resp.fields["SecretString"].Str?
    ensures r.Ok? ==> r.value == decode(resp.fields["SecretString"].s)
    ensures CheckMissingField(resp, "SecretString").Err? ==> r == Err(CheckMissingField(resp, "SecretString").error)
  {
    var _ :- CheckMissingField(resp, "SecretString");
    var text :- AsText(resp.fields["SecretString"]);
    Ok(decode(text))
  }

  /** The `get_secret_value` call for a secret's Name; a ClientError is re-raised, the status is not inspected. */
  function ReadSecret(name: Value): Request {
    Secrets(GetSecretValue(name))
  }

  /** The Name of a secret, None when it has none. */
  function NameOf(secret: Value): Value {
    if secret.Obj? && "Name" in secret.fields then secret.fields["Name"] else Null
  }

  /** The reads of the values of `secrets`, in list order. */
  function ReadsOf(secrets: seq<Value>): seq<Request>
    decreases |secrets|
  {
    if secrets == [] then [] else ReadsOf(secrets[..|secrets| - 1]) + [ReadSecret(NameOf(secrets[|secrets| - 1]))]
  }

  /**
   * `get_db_cluster_id_from_secret_name` after its call: the decoded secret's
   * `dbClusterIdentifier` (None when absent). A secret that is not JSON raises its decoding
   * error, a ValueError.
   */
  function ClusterIdOf(resp: Value, decode: string -> Option<Value>): (r: Result<Value>)
    ensures r.Ok? <==>
      (SecretDocument(resp, decode).Ok? && SecretDocument(resp, decode).value.Some? && SecretDocument(resp, decode).value.value.Obj?)
    ensures r.Ok? ==> r.value == Field(SecretDocument(resp, decode).value.value, "dbClusterIdentifier")
    ensures SecretDocument(resp, decode) == Ok(None) ==> r == Err(ValueError)
  {
    var doc :- SecretDocument(resp, decode);
    match doc
    case None => Err(ValueError)
    case Some(d) => Get(d, "dbClusterIdentifier")
  }

  /** The secret belongs to `target`: it has a Name, and the truthy cluster id in its value equals `target`. */
  predicate Owned(store: SecretStore, decode: string -> Option<Value>, target: Value, secret: Value) {
    && CheckMissingField(secret, "Name").Ok?
    && var cid := ClusterIdOf(store.values(secret.fields["Name"]), decode);
    && cid.Ok? && Truthy(cid.value) && cid.value == target
  }

  /** The place of the first secret owned by `target`; |secrets| when there is none. */
  function FirstOwned(store: SecretStore, decode: string -> Option<Value>, target: Value, secrets: seq<Value>): (k: nat)
    ensures k <= |secrets|
    ensures k < |secrets| ==> Owned(store, decode, target, secrets[k])
    ensures forall j | 0 <= j < k :: !Owned(store, decode, target, secrets[j])
    decreases |secrets|
  {
    if secrets == [] then 0
    else if Owned(store, decode, target, secrets[0]) then 0
    else
      var k := FirstOwned(store, decode, target, secrets[1..]);
      assert forall j | 1 <= j < k + 1 :: secrets[j] == secrets[1..][j - 1];
      k + 1
  }

  /** The number of secrets the search reads: up to and including the first owned one. */
  function Examined(store: SecretStore, decode: string -> Option<Value>, target: Value, secrets: seq<Value>): (n: nat)
    ensures n <= |secrets|
  {
    var k := FirstOwned(store, decode, target, secrets);
    if k < |secrets| then k + 1 else |secrets|
  }

  /** What follows the read of a named secret's value: a cluster id that cannot be read raises; on a match, the ARN must be there. */
  function ProbeTail(store: SecretStore, decode: string -> Option<Value>, target: Value, secret: Value): Plan
    requires CheckMissingField(secret, "Name").Ok?
  {
    match ClusterIdOf(store.values(secret.fields["Name"]), decode)
    case Err(e) => Raise(e)
    case Ok(cid) =>
      if Truthy(cid) && cid == target then OrRaise(CheckMissingField(secret, "ARN"), Done) else Done
  }

  /** One secret's turn: its Name must be there, its value is read, and it is compared. */
  function ProbePlan(store: SecretStore, decode: string -> Option<Value>, target: Value, secret: Value): Plan {
    match CheckMissingField(secret, "Name")
    case Err(e) => Raise(e)
    case Ok(_) => Then(Calls([ReadSecret(secret.fields["Name"])]), ProbeTail(store, decode, target, secret))
  }

  /** The turns of the secrets the search reads. */
  function ProbePlans(store: SecretStore, decode: string -> Option<Value>, target: Value, secrets: seq<Value>): (ps: seq<Plan>)
    ensures |ps| == Examined(store, decode, target, secrets)
    ensures forall i | 0 <= i < |ps| :: ps[i] == ProbePlan(store, decode, target, secrets[i])
  {
    var n := Examined(store, decode, target, secrets);
    seq(n, i requires 0 <= i < n => ProbePlan(store, decode, target, secrets[i]))
  }

  /** The ARN the search returns: that of the first owned secret, "" when none is owned. */
  function FoundArn(store: SecretStore, decode: string -> Option<Value>, target: Value, secrets: seq<Value>): Value {
    var k := FirstOwned(store, decode, target, secrets);
    if k < |secrets| && "ARN" in secrets[k].fields then secrets[k].fields["ARN"] else Str("")
  }

  /** A named secret's turn reads its value and nothing else; one without a Name raises before any call. */
  lemma ProbeCalls(store: SecretStore, decode: string -> Option<Value>, target: Value, secret: Value)
    ensures ProbePlan(store, decode, target, secret).fault.None? ==> CheckMissingField(secret, "Name").Ok?
    ensures CheckMissingField(secret, "Name").Ok? ==> ProbePlan(store, decode, target, secret).calls == [ReadSecret(secret.fields["Name"])]
    ensures CheckMissingField(secret, "Name").Err? ==> ProbePlan(store, decode, target, secret) == Raise(CheckMissingField(secret, "Name").error)
  {
  }

  /**
   * When the search raised nothing and some secret is owned by `target`, the first such secret
   * is the last one read and its ARN is returned; when none is, every secret is read and the
   * ARN is "".
   */
  lemma FoundFirstOwned(store: SecretStore, decode: string -> Option<Value>, target: Value, secrets: seq<Value>)
    requires Sequence(ProbePlans(store, decode, target, secrets)).fault.None?
    ensures var k := FirstOwned(store, decode, target, secrets);
      k < |secrets| ==>
        && "ARN" in secrets[k].fields
        && FoundArn(store, decode, target, secrets) == secrets[k].fields["ARN"]
        && Examined(store, decode, target, secrets) == k + 1
    ensures (forall j | 0 <= j < |secrets| :: !Owned(store, decode, target, secrets[j])) ==>
      FoundArn(store, decode, target, secrets) == Str("") && Examined(store, decode, target, secrets) == |secrets|
  {
    var ps := ProbePlans(store, decode, target, secrets);
    var k := FirstOwned(store, decode, target, secrets);
    SequenceFaultless(ps);
    if k < |secrets| {
      assert ps[k].fault.None?;
      assert CheckMissingField(secrets[k], "ARN").Ok?;
    }
  }

  /** Plans that each raise nothing and read one secret's value, one after another, read those values in order. */
  lemma {:induction false} SequenceOfReads(ps: seq<Plan>, secrets: seq<Value>)
    requires |ps| == |secrets|
    requires forall i | 0 <= i < |ps| :: ps[i].fault.None? && ps[i].calls == [ReadSecret(NameOf(secrets[i]))]
    ensures Sequence(ps).fault.None? && Sequence(ps).calls == ReadsOf(secrets)
    decreases |ps|
  {
    if ps != [] {
      var n := |ps|;
      var init := secrets[..n - 1];
      assert forall i | 0 <= i < n - 1 :: ps[..n - 1][i] == ps[i] && init[i] == secrets[i];
      SequenceOfReads(ps[..n - 1], init);
    }
  }

  /** When the search raised nothing, every secret it examined had a Name, and it read the value of each, in list order. */
  lemma ProbesInOrder(store: SecretStore, decode: string -> Option<Value>, target: Value, secrets: seq<Value>)
    requires Sequence(ProbePlans(store, decode, target, secrets)).fault.None?
    ensures var n := Examined(store, decode, target, secrets);
      && (forall i | 0 <= i < n :: CheckMissingField(secrets[i], "Name").Ok?)
      && Sequence(ProbePlans(store, decode, target, secrets)).calls == ReadsOf(secrets[..n])
  {
    var ps := ProbePlans(store, decode, target, secrets);
    var n := |ps|;
    SequenceFaultless(ps);
    forall i | 0 <= i < n
      ensures CheckMissingField(secrets[i], "Name").Ok? && ps[i].calls == [ReadSecret(NameOf(secrets[..n][i]))]
    {
      ProbeCalls(store, decode, target, secrets[i]);
    }
    SequenceOfReads(ps, secrets[..n]);
  }

  /** A search that has passed over `i` secrets and finds the next one owned has found the first. */
  lemma FirstOwnedAt(store: SecretStore, decode: string -> Option<Value>, target: Value, secrets: seq<Value>, i: nat)
    requires i < |secrets| && i <= FirstOwned(store, decode, target, secrets)
    requires Owned(store, decode, target, secrets[i])
    ensures FirstOwned(store, decode, target, secrets) == i && Examined(store, decode, target, secrets) == i + 1
    ensures "ARN" in secrets[i].fields ==> FoundArn(store, decode, target, secrets) == secrets[i].fields["ARN"]
  {
  }

  /** A search that has passed over `i` secrets and finds the next one not owned goes on. */
  lemma NotOwnedAt(store: SecretStore, decode: string -> Option<Value>, target: Value, secrets: seq<Value>, i: nat)
    requires i < |secrets| && i <= FirstOwned(store, decode, target, secrets)
    requires !Owned(store, decode, target, secrets[i])
    ensures i + 1 <= FirstOwned(store, decode, target, secrets)
  {
  }

  /** A search that passed over every secret found none, and returns "". */
  lemma NoneOwned(store: SecretStore, decode: string -> Option<Value>, target: Value, secrets: seq<Value>)
    requires FirstOwned(store, decode, target, secrets) == |secrets|
    ensures FoundArn(store, decode, target, secrets) == Str("") && Examined(store, decode, target, secrets) == |secrets|
  {
  }

  /** One secret's turn, carried out; `owned` and `arn` are what it found. */
  method Probe(provider: Provider, store: SecretStore, decode: string -> Option<Value>, target: Value, secret: Value)
    returns (r: Outcome, owned: bool, arn: Value)
    modifies provider
    ensures Carried(provider.outcome, old(provider.calls), provider.calls, ProbePlan(store, decode, target, secret), r)
    ensures r.Ok? ==> owned == Owned(store, decode, target, secret)
    ensures r.Ok? && owned ==> "ARN" in secret.fields && arn == secret.fields["ARN"]
  {
    ghost var before := provider.calls;
    owned, arn := false, Str("");
    var named := CheckMissingField(secret, "Name");
    if named.Err? {
      CarriedToEnd(provider.outcome, before, ProbePlan(store, decode, target, secret));
      return Err(named.error), owned, arn;
    }
    var read := ReadSecret(secret.fields["Name"]);
    ghost var tail := ProbeTail(store, decode, target, secret);
    r := Call(provider, read);
    if r.Err? {
      LeadFailed(provider.outcome, before, read, tail);
      return;
    }
    CarriedToEnd(provider.outcome, provider.calls, tail);
    assert provider.calls + [] == provider.calls;
    var cid := ClusterIdOf(store.values(secret.fields["Name"]), decode);
    if cid.Err? {
      r := Err(cid.error);
    } else if Truthy(cid.value) && cid.value == target {
      owned := true;
      var hasArn := CheckMissingField(secret, "ARN");
      if hasArn.Err? {
        r := Err(hasArn.error);
      } else {
        arn := secret.fields["ARN"];
      }
    }
    LeadProceeded(provider.outcome, before, provider.calls, read, tail, r);
  }

  /** `_fetch_secret_for_db`'s loop: the secrets in list order, up to the first owned one (`break`). */
  method Search(provider: Provider, store: SecretStore, decode: string -> Option<Value>, target: Value, secrets: seq<Value>)
    returns (r: Outcome, arn: Value)
    modifies provider
    ensures Carried(provider.outcome, old(provider.calls), provider.calls, Sequence(ProbePlans(store, decode, target, secrets)), r)
    ensures r.Ok? ==> arn == FoundArn(store, decode, target, secrets)
  {
    ghost var start := provider.calls;
    ghost var ps := ProbePlans(store, decode, target, secrets);
    ghost var k := FirstOwned(store, decode, target, secrets);
    arn := Str("");
    SequenceStart(provider.outcome, start, ps);
    var i := 0;
    while i < |secrets|
      invariant 0 <= i <= k
      invariant Carried(provider.outcome, start, provider.calls, Sequence(ps[..i]), Pass)
    {
      ghost var mid := provider.calls;
      var step, owned, a := Probe(provider, store, decode, target, secrets[i]);
      SequenceStep(provider.outcome, start, mid, provider.calls, ps, i, step);
      if step.Err? {
        return step, arn;
      }
      if owned {
        FirstOwnedAt(store, decode, target, secrets, i);
        assert ps[..i + 1] == ps;
        return Pass, a;
      }
      NotOwnedAt(store, decode, target, secrets, i);
      i := i + 1;
    }
    NoneOwned(store, decode, target, secrets);
    SequenceEnd(provider.outcome, start, provider.calls, ps, Pass);
    r := Pass;
  }

  /** `_fetch_secret_for_db` (the first-match version): the listing, then the search through it. */
  function FetchPlan(store: SecretStore, decode: string -> Option<Value>, target: Value): Plan {
    Then(Calls([Secrets(ListSecrets)]),
      match Listed(store.listing)
      case Err(e) => Raise(e)
      case Ok(secrets) => Sequence(ProbePlans(store, decode, target, secrets)))
  }

  /** The ARN `_fetch_secret_for_db` returns, when it raises nothing. */
  function Fetched(store: SecretStore, decode: string -> Option<Value>, target: Value): Value {
    match Listed(store.listing)
    case Err(_) => Str("")
    case Ok(secrets) => FoundArn(store, decode, target, secrets)
  }

  /** The search calls Secrets Manager only: the listing first, then reads of secret values. */
  lemma FetchCalls(store: SecretStore, decode: string -> Option<Value>, target: Value)
    ensures var p := FetchPlan(store, decode, target);
      && p.calls != [] && p.calls[0] == Secrets(ListSecrets)
      && (forall c | c in p.calls[1..] :: c.Secrets? && c.secrets.GetSecretValue?)
      && forall c | c in p.calls :: c.Secrets?
  {
    var p := FetchPlan(store, decode, target);
    var secrets := Listed(store.listing);
    if secrets.Ok? {
      var ps := ProbePlans(store, decode, target, secrets.value);
      assert p.calls[1..] == Sequence(ps).calls;
      SequenceCalls(ps);
      forall i | 0 <= i < |ps| ensures forall c | c in ps[i].calls :: c.Secrets? && c.secrets.GetSecretValue? {
        ProbeCalls(store, decode, target, secrets.value[i]);
      }
    }
    forall c | c in p.calls ensures c.Secrets? {
      if c != p.calls[0] {
        var i :| 0 <= i < |p.calls| && p.calls[i] == c;
        assert p.calls[1..][i - 1] == c;
      }
    }
  }

  /** `_fetch_secret_for_db`, carried out: the listing is status-checked before any secret is read. */
  method FetchSecret(provider: Provider, store: SecretStore, decode: string -> Option<Value>, target: Value)
    returns (r: Outcome, arn: Value)
    modifies provider
    ensures Carried(provider.outcome, old(provider.calls), provider.calls, FetchPlan(store, decode, target), r)
    ensures r.Ok? ==> arn == Fetched(store, decode, target)
  {
    ghost var before := provider.calls;
    var list := Secrets(ListSecrets);
    ghost var rest := match Listed(store.listing) case Err(e) => Raise(e) case Ok(secrets) => Sequence(ProbePlans(store, decode, target, secrets));
    arn := Str("");
    r := Call(provider, list);
    if r.Err? {
      LeadFailed(provider.outcome, before, list, rest);
      return;
    }
    var secrets := Listed(store.listing);
    if secrets.Err? {
      CarriedToEnd(provider.outcome, provider.calls, rest);
      assert provider.calls + [] == provider.calls;
      r := Err(secrets.error);
    } else {
      r, arn := Search(provider, store, decode, target, secrets.value);
    }
    LeadProceeded(provider.outcome, before, provider.calls, list, rest, r);
  }

  // The rds-glue-initial search: every secret is read, and the last match is kept.

  /**
   * `_get_db_cluster_identifier` in rds-glue-initial: the cluster id of a secret's value, as
   * ClusterIdOf reads it, except that a value that is not JSON is None instead of an error.
   */
  function LenientClusterId(resp: Value, decode: string -> Option<Value>): (r: Result<Value>)
    ensures SecretDocument(resp, decode) == Ok(None) ==> r == Ok(Null)
    ensures SecretDocument(resp, decode) != Ok(None) ==> r == ClusterIdOf(resp, decode)
  {
    var doc :- SecretDocument(resp, decode);
    match doc
    case None => Ok(Null)
    case Some(d) => Get(d, "dbClusterIdentifier")
  }

  /** The secret matches `target`: it has a Name, and the cluster id in its value is not None and equals `target`. */
  predicate Holds(store: SecretStore, decode: string -> Option<Value>, target: Value, secret: Value) {
    && CheckMissingField(secret, "Name").Ok?
    && var cid := LenientClusterId(store.values(secret.fields["Name"]), decode);
    && cid.Ok? && cid.value != Null && cid.value == target
  }

  /** For a truthy cluster id, as the handlers' event fields are, the two searches agree on what matches. */
  lemma HoldsIsOwned(store: SecretStore, decode: string -> Option<Value>, target: Value, secret: Value)
    requires Truthy(target)
    ensures Holds(store, decode, target, secret) <==> Owned(store, decode, target, secret)
  {
    if CheckMissingField(secret, "Name").Ok? {
      var resp := store.values(secret.fields["Name"]);
      if SecretDocument(resp, decode) == Ok(None) {
        assert ClusterIdOf(resp, decode).Err?;
      }
    }
  }

  /** What follows the read of a named secret's value: a cluster id that cannot be read raises; on a match, the ARN must be there. */
  function ScanTail(store: SecretStore, decode: string -> Option<Value>, target: Value, secret: Value): Plan
    requires CheckMissingField(secret, "Name").Ok?
  {
    match LenientClusterId(store.values(secret.fields["Name"]), decode)
    case Err(e) => Raise(e)
    case Ok(cid) =>
      if cid != Null && cid == target then OrRaise(CheckMissingField(secret, "ARN"), Done) else Done
  }

  /** One secret's turn in the full search: its Name must be there, its value is read, and it is compared. */
  function ScanPlan(store: SecretStore, decode: string -> Option<Value>, target: Value, secret: Value): Plan {
    match CheckMissingField(secret, "Name")
    case Err(e) => Raise(e)
    case Ok(_) => Then(Calls([ReadSecret(secret.fields["Name"])]), ScanTail(store, decode, target, secret))
  }

  function ScanPlans(store: SecretStore, decode: string -> Option<Value>, target: Value, secrets: seq<Value>): (ps: seq<Plan>)
    ensures |ps| == |secrets|
    ensures forall i | 0 <= i < |ps| :: ps[i] == ScanPlan(store, decode, target, secrets[i])
  {
    seq(|secrets|, i requires 0 <= i < |secrets| => ScanPlan(store, decode, target, secrets[i]))
  }

  /** A secret's turn that raised nothing had a Name, read that secret's value only, and found the ARN of a match. */
  lemma ScanFaultless(store: SecretStore, decode: string -> Option<Value>, target: Value, secret: Value)
    requires ScanPlan(store, decode, target, secret).fault.None?
    ensures CheckMissingField(secret, "Name").Ok?
    ensures ScanPlan(store, decode, target, secret).calls == [ReadSecret(secret.fields["Name"])]
    ensures Holds(store, decode, target, secret) ==> CheckMissingField(secret, "ARN").Ok?
  {
  }

  /** The ARN and the Name the full search returns. */
  datatype Found = Found(arn: Value, name: Value)

  /** The loop's two variables after one more secret: `name` is always overwritten, `arn` only on a match. */
  function Noted(store: SecretStore, decode: string -> Option<Value>, target: Value, found: Found, secret: Value): Found {
    var name := if secret.Obj? && "Name" in secret.fields then secret.fields["Name"] else found.name;
    var arn := if Holds(store, decode, target, secret) && "ARN" in secret.fields then secret.fields["ARN"] else found.arn;
    Found(arn, name)
  }

  /** The loop's variables after the secrets, from `arn = ""` and `name = ""`. */
  function LastFound(store: SecretStore, decode: string -> Option<Value>, target: Value, secrets: seq<Value>): Found
    decreases |secrets|
  {
    if secrets == [] then Found(Str(""), Str(""))
    else Noted(store, decode, target, LastFound(store, decode, target, secrets[..|secrets| - 1]), secrets[|secrets| - 1])
  }

  /** The place of the last secret that matches `target`; -1 when none does. */
  function LastHolder(store: SecretStore, decode: string -> Option<Value>, target: Value, secrets: seq<Value>): (k: int)
    ensures -1 <= k < |secrets|
    ensures k >= 0 ==> Holds(store, decode, target, secrets[k])
    ensures forall j | k < j < |secrets| :: !Holds(store, decode, target, secrets[j])
    decreases |secrets|
  {
    if secrets == [] then -1
    else if Holds(store, decode, target, secrets[|secrets| - 1]) then |secrets| - 1
    else
      var init := secrets[..|secrets| - 1];
      var k := LastHolder(store, decode, target, init);
      assert forall j | k < j < |secrets| - 1 :: secrets[j] == init[j];
      k
  }

  /**
   * When the full search raised nothing, it returns the ARN of the LAST secret that matches
   * ("" when none does) and the Name of the last secret listed, whether it matched or not.
   */
  lemma {:induction false} FoundLast(store: SecretStore, decode: string -> Option<Value>, target: Value, secrets: seq<Value>)
    requires forall i | 0 <= i < |secrets| :: ScanPlan(store, decode, target, secrets[i]).fault.None?
    ensures var found := LastFound(store, decode, target, secrets);
      var k := LastHolder(store, decode, target, secrets);
      && (secrets == [] ==> found.name == Str(""))
      && (secrets != [] ==> CheckMissingField(secrets[|secrets| - 1], "Name").Ok? && found.name == secrets[|secrets| - 1].fields["Name"])
      && (k >= 0 ==> CheckMissingField(secrets[k], "ARN").Ok? && found.arn == secrets[k].fields["ARN"])
      && (k < 0 ==> found.arn == Str(""))
    decreases |secrets|
  {
    if secrets != [] {
      var init := secrets[..|secrets| - 1];
      var last := secrets[|secrets| - 1];
      assert forall i | 0 <= i < |init| :: init[i] == secrets[i];
      FoundLast(store, decode, target, init);
      ScanFaultless(store, decode, target, last);
    }
  }

  /** When the full search raised nothing, every secret had a Name, and the search read the value of each, in list order. */
  lemma ScansReadAll(store: SecretStore, decode: string -> Option<Value>, target: Value, secrets: seq<Value>)
    requires forall i | 0 <= i < |secrets| :: ScanPlan(store, decode, target, secrets[i]).fault.None?
    ensures forall i | 0 <= i < |secrets| :: CheckMissingField(secrets[i], "Name").Ok?
    ensures Sequence(ScanPlans(store, decode, target, secrets)).calls == ReadsOf(secrets)
  {
    var ps := ScanPlans(store, decode, target, secrets);
    forall i | 0 <= i < |ps|
      ensures CheckMissingField(secrets[i], "Name").Ok? && ps[i].calls == [ReadSecret(NameOf(secrets[i]))]
    {
      ScanFaultless(store, decode, target, secrets[i]);
    }
    SequenceOfReads(ps, secrets);
  }

  /** One secret more of the list, one step more of the loop. */
  lemma LastFoundStep(store: SecretStore, decode: string -> Option<Value>, target: Value, secrets: seq<Value>, i: nat)
    requires i < |secrets|
    ensures LastFound(store, decode, target, secrets[..i + 1]) == Noted(store, decode, target, LastFound(store, decode, target, secrets[..i]), secrets[i])
  {
    assert secrets[..i + 1][..i] == secrets[..i];
  }

  /** One secret's turn in the full search, carried out. */
  method Scan(provider: Provider, store: SecretStore, decode: string -> Option<Value>, target: Value, found: Found, secret: Value)
    returns (r: Outcome, next: Found)
    modifies provider
    ensures Carried(provider.outcome, old(provider.calls), provider.calls, ScanPlan(store, decode, target, secret), r)
    ensures r.Ok? ==> next == Noted(store, decode, target, found, secret)
  {
    ghost var before := provider.calls;
    next := found;
    var named := CheckMissingField(secret, "Name");
    if named.Err? {
      CarriedToEnd(provider.outcome, before, ScanPlan(store, decode, target, secret));
      return Err(named.error), next;
    }
    var name := secret.fields["Name"];
    var read := ReadSecret(name);
    ghost var tail := ScanTail(store, decode, target, secret);
    r := Call(provider, read);
    if r.Err? {
      LeadFailed(provider.outcome, before, read, tail);
      return;
    }
    CarriedToEnd(provider.outcome, provider.calls, tail);
    assert provider.calls + [] == provider.calls;
    next := Found(found.arn, name);
    var cid := LenientClusterId(store.values(name), decode);
    if cid.Err? {
      r := Err(cid.error);
    } else if cid.value != Null && cid.value == target {
      var hasArn := CheckMissingField(secret, "ARN");
      if hasArn.Err? {
        r := Err(hasArn.error);
      } else {
        next := Found(secret.fields["ARN"], name);
      }
    }
    LeadProceeded(provider.outcome, before, provider.calls, read, tail, r);
  }

  /** `_fetch_secret_for_db`'s loop in rds-glue-initial: every secret, in list order, with no `break`. */
  method ScanAll(provider: Provider, store: SecretStore, decode: string -> Option<Value>, target: Value, secrets: seq<Value>)
    returns (r: Outcome, found: Found)
    modifies provider
    ensures Carried(provider.outcome, old(provider.calls), provider.calls, Sequence(ScanPlans(store, decode, target, secrets)), r)
    ensures r.Ok? ==> found == LastFound(store, decode, target, secrets)
  {
    ghost var start := provider.calls;
    ghost var ps := ScanPlans(store, decode, target, secrets);
    found := Found(Str(""), Str(""));
    SequenceStart(provider.outcome, start, ps);
    assert secrets[..0] == [];
    var i := 0;
    while i < |secrets|
      invariant 0 <= i <= |secrets|
      invariant Carried(provider.outcome, start, provider.calls, Sequence(ps[..i]), Pass)
      invariant found == LastFound(store, decode, target, secrets[..i])
    {
      ghost var mid := provider.calls;
      var step, next := Scan(provider, store, decode, target, found, secrets[i]);
      SequenceStep(provider.outcome, start, mid, provider.calls, ps, i, step);
      if step.Err? {
        return step, found;
      }
      LastFoundStep(store, decode, target, secrets, i);
      found := next;
      i := i + 1;
    }
    SequenceEnd(provider.outcome, start, provider.calls, ps, Pass);
    assert secrets[..i] == secrets;
    r := Pass;
  }

  /** `_fetch_secret_for_db` (the full version): the listing, then every secret in it. */
  function FetchAllPlan(store: SecretStore, decode: string -> Option<Value>, target: Value): Plan {
    Then(Calls([Secrets(ListSecrets)]),
      match Listed(store.listing)
      case Err(e) => Raise(e)
      case Ok(secrets) => Sequence(ScanPlans(store, decode, target, secrets)))
  }

  /** The ARN and Name the full `_fetch_secret_for_db` returns, when it raises nothing. */
  function FetchedAll(store: SecretStore, decode: string -> Option<Value>, target: Value): Found {
    match Listed(store.listing)
    case Err(_) => Found(Str(""), Str(""))
    case Ok(secrets) => LastFound(store, decode, target, secrets)
  }

  /**
   * When the full search raised nothing, the Name it returns is the last listed secret's, and
   * the ARN is that of the last match, or "".
   */
  lemma FetchedAllFound(store: SecretStore, decode: string -> Option<Value>, target: Value)
    requires FetchAllPlan(store, decode, target).fault.None?
    ensures Listed(store.listing).Ok?
    ensures var secrets := Listed(store.listing).value;
      var found := FetchedAll(store, decode, target);
      var k := LastHolder(store, decode, target, secrets);
      && CheckMissingField(secrets[|secrets| - 1], "Name").Ok? && found.name == secrets[|secrets| - 1].fields["Name"]
      && (k >= 0 ==> CheckMissingField(secrets[k], "ARN").Ok? && found.arn == secrets[k].fields["ARN"])
      && (k < 0 ==> found.arn == Str(""))
  {
    var secrets := Listed(store.listing).value;
    SequenceFaultless(ScanPlans(store, decode, target, secrets));
    FoundLast(store, decode, target, secrets);
  }

  /** When the full search raised nothing, it listed the secrets, and then read every one of them, in order, by its Name. */
  lemma FetchedAllCalls(store: SecretStore, decode: string -> Option<Value>, target: Value)
    requires FetchAllPlan(store, decode, target).fault.None?
    ensures Listed(store.listing).Ok?
    ensures var secrets := Listed(store.listing).value;
      && (forall i | 0 <= i < |secrets| :: CheckMissingField(secrets[i], "Name").Ok?)
      && FetchAllPlan(store, decode, target).calls == [Secrets(ListSecrets)] + ReadsOf(secrets)
  {
    var secrets := Listed(store.listing).value;
    SequenceFaultless(ScanPlans(store, decode, target, secrets));
    ScansReadAll(store, decode, target, secrets);
  }

  /** `_fetch_secret_for_db` in rds-glue-initial, carried out. */
  method FetchAll(provider: Provider, store: SecretStore, decode: string -> Option<Value>, target: Value)
    returns (r: Outcome, found: Found)
    modifies provider
    ensures Carried(provider.outcome, old(provider.calls), provider.calls, FetchAllPlan(store, decode, target), r)
    ensures r.Ok? ==> found == FetchedAll(store, decode, target)
  {
    ghost var before := provider.calls;
    var list := Secrets(ListSecrets);
    ghost var rest := match Listed(store.listing) case Err(e) => Raise(e) case Ok(secrets) => Sequence(ScanPlans(store, decode, target, secrets));
    found := Found(Str(""), Str(""));
    r := Call(provider, list);
    if r.Err? {
      LeadFailed(provider.outcome, before, list, rest);
      return;
    }
    var secrets := Listed(store.listing);
    if secrets.Err? {
      CarriedToEnd(provider.outcome, provider.calls, rest);
      assert provider.calls + [] == provider.calls;
      r := Err(secrets.error);
    } else {
      r, found := ScanAll(provider, store, decode, target, secrets.value);
    }
    LeadProceeded(provider.outcome, before, provider.calls, list, rest, r);
  }
}
