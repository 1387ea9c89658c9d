/**
 * The DDL runner rds-ddl-init and rds-ddl-change share: the DDL file is read from S3, split on
 * ';', each piece is stripped of spaces, newlines and tabs, and every non-empty piece is run
 * through the RDS Data API in file order. The first statement that is not accepted raises and
 * ends the run.
 */
module Ddl {
  import opened Errors
  import opened Json
  import opened Text
  import opened Validation
  import opened Aws

  /** The file read when DDL_SOURCE_FILE_RDS is not set. */
  const DdlFile := "rds-ddl.sql"

  /** The characters `sql.strip(" \n\t")` removes. */
  const Blank: set<char> := {' ', '\n', '\t'}

  /** `os.environ.get("DDL_SOURCE_FILE_RDS", DDL_FILE)`: a setting that is present is used even when empty. */
  function DdlFileName(env: Env): string {
    if "DDL_SOURCE_FILE_RDS" in env then env["DDL_SOURCE_FILE_RDS"] else DdlFile
  }

  /** Where the statements run: the cluster, the secret that opens it, and the database. */
  datatype Target = Target(clusterArn: Value, secretArn: Value, database: Value)

  function Execution(t: Target, sql: string): Request {
    ExecuteSql(t.clusterArn, t.secretArn, t.database, sql)
  }

  /** The statements of the pieces of a file: each piece stripped, and the empty ones dropped. */
  function Statements(pieces: seq<string>): seq<string>
    decreases |pieces|
  {
    if pieces == [] then []
    else
      var s := Strip(pieces[|pieces| - 1], Blank);
      if s == [] then Statements(pieces[..|pieces| - 1]) else Statements(pieces[..|pieces| - 1]) + [s]
  }

  /** The statements of a whole file, in file order. */
  function FileStatements(content: string): seq<string> {
    Statements(Split(content, ";"))
  }

  /** One piece contributes its stripped text, or nothing when that is empty. */
  lemma StatementsSingle(piece: string)
    ensures Statements([piece]) == if Strip(piece, Blank) == [] then [] else [Strip(piece, Blank)]
  {
    assert [piece][..0] == [];
  }

  /** A file without ';' is one statement, its text without the surrounding blanks, unless it is blank. */
  lemma SingleStatementFile(content: string)
    requires !Contains(content, ";")
    ensures FileStatements(content) == if Strip(content, Blank) == [] then [] else [Strip(content, Blank)]
  {
    SplitAbsent(content, ";");
    StatementsSingle(content);
  }

  /** A statement as the loop runs it: non-empty, without ';', and neither beginning nor ending with a blank. */
  predicate Clean(s: string) {
    && s != [] && s[0] !in Blank && s[|s| - 1] !in Blank
    && forall k | 0 <= k < |s| :: s[k] != ';'
  }

  /** Every statement of a file is clean. */
  lemma FileStatementsShape(content: string)
    ensures forall i | 0 <= i < |FileStatements(content)| :: Clean(FileStatements(content)[i])
  {
    var pieces := Split(content, ";");
    forall j | 0 <= j < |pieces| ensures forall k | 0 <= k < |pieces[j]| :: pieces[j][k] != ';' {
      AbsentChar(pieces[j], ';');
    }
    StatementsShape(pieces);
  }

  /** A piece without ';' strips to a clean statement, unless to nothing. */
  lemma StripClean(piece: string)
    requires forall k | 0 <= k < |piece| :: piece[k] != ';'
    requires Strip(piece, Blank) != []
    ensures Clean(Strip(piece, Blank))
  {
    StripKeeps(piece, Blank, ';');
  }

  lemma {:induction false} StatementsShape(pieces: seq<string>)
    requires forall j | 0 <= j < |pieces| :: forall k | 0 <= k < |pieces[j]| :: pieces[j][k] != ';'
    ensures forall i | 0 <= i < |Statements(pieces)| :: Clean(Statements(pieces)[i])
    decreases |pieces|
  {
    if pieces != [] {
      var init := pieces[..|pieces| - 1];
      var last := pieces[|pieces| - 1];
      assert forall j | 0 <= j < |init| :: init[j] == pieces[j];
      StatementsShape(init);
      if Strip(last, Blank) != [] {
        StripClean(last);
      }
    }
  }

  /** One piece's turn: its statement is run, unless the piece is blank. */
  function PiecePlan(t: Target, piece: string): Plan {
    var s := Strip(piece, Blank);
    if s == [] then Done else Calls([Execution(t, s)])
  }

  function PiecePlans(t: Target, pieces: seq<string>): (ps: seq<Plan>)
    ensures |ps| == |pieces|
    ensures forall i | 0 <= i < |pieces| :: ps[i] == PiecePlan(t, pieces[i])
  {
    seq(|pieces|, i requires 0 <= i < |pieces| => PiecePlan(t, pieces[i]))
  }

  /** The executions of the statements, in order. */
  function Executions(t: Target, stmts: seq<string>): (cs: seq<Request>)
    ensures |cs| == |stmts|
    ensures forall i | 0 <= i < |stmts| :: cs[i] == Execution(t, stmts[i])
  {
    seq(|stmts|, i requires 0 <= i < |stmts| => Execution(t, stmts[i]))
  }

  lemma ExecutionsSnoc(t: Target, stmts: seq<string>, s: string)
    ensures Executions(t, stmts + [s]) == Executions(t, stmts) + [Execution(t, s)]
  {
  }

  /** What a run of the file does when every statement is accepted: each statement, once, in file order. */
  function DdlPlan(t: Target, content: string): Plan {
    Calls(Executions(t, FileStatements(content)))
  }

  /** Going through the pieces one by one runs the statements of the file and nothing else. */
  lemma {:induction false} PiecesRunStatements(t: Target, pieces: seq<string>)
    ensures Sequence(PiecePlans(t, pieces)) == Calls(Executions(t, Statements(pieces)))
    decreases |pieces|
  {
    if pieces != [] {
      var init := pieces[..|pieces| - 1];
      var ps := PiecePlans(t, pieces);
      assert ps[..|ps| - 1] == PiecePlans(t, init);
      PiecesRunStatements(t, init);
      var s := Strip(pieces[|pieces| - 1], Blank);
      if s != [] {
        ExecutionsSnoc(t, Statements(init), s);
      }
    }
  }

  /**
   * A statement that is not accepted raises, and the statements after it are not run: a reply
   * without a status is a KeyError, another status raises Exception, and a refusal is the ClientError.
   */
  lemma LaterStatementsNotRun(outcome: nat -> Reply, before: seq<Request>, after: seq<Request>,
                              t: Target, content: string, j: nat, r: Outcome)
    requires Carried(outcome, before, after, DdlPlan(t, content), r)
    requires j < |FileStatements(content)|
    requires forall k | |before| <= k < |before| + j :: outcome(k) == Accepted
    requires outcome(|before| + j) != Accepted
    ensures after == before + Executions(t, FileStatements(content))[..j + 1]
    ensures r.Err?
    ensures outcome(|before| + j) == Response(0) ==> r == Err(KeyError("HTTPStatusCode"))
    ensures outcome(|before| + j).Response? && outcome(|before| + j).status != 0 ==> r == Err(Failure)
    ensures outcome(|before| + j).Rejected? ==> r == Err(ClientError(outcome(|before| + j).code))
  {
    var cs := Executions(t, FileStatements(content));
    forall i | 0 <= i < j ensures Proceeds(cs[..j][i], outcome(|before| + i)) {
      assert cs[..j][i] == cs[i];
    }
    StopsAtFailure(outcome, |before|, cs, j);
  }

  /** When every statement is accepted, all of them run, in order, and the run raises nothing. */
  lemma AllStatementsRun(outcome: nat -> Reply, before: seq<Request>, after: seq<Request>,
                         t: Target, content: string, r: Outcome)
    requires Carried(outcome, before, after, DdlPlan(t, content), r)
    requires forall k | |before| <= k < |before| + |FileStatements(content)| :: outcome(k) == Accepted
    ensures after == before + Executions(t, FileStatements(content)) && r == Pass
  {
    var cs := Executions(t, FileStatements(content));
    assert AllProceed(outcome, |before|, cs);
    CarriedToEnd(outcome, before, DdlPlan(t, content));
  }

  /** The statement loop: the file's pieces in order, each stripped, the blank ones skipped. */
  method RunDdl(provider: Provider, t: Target, content: string) returns (r: Outcome)
    modifies provider
    ensures Carried(provider.outcome, old(provider.calls), provider.calls, DdlPlan(t, content), r)
  {
    var pieces := Split(content, ";");
    ghost var start := provider.calls;
    ghost var ps := PiecePlans(t, pieces);
    PiecesRunStatements(t, pieces);
    SequenceStart(provider.outcome, start, ps);
    var i := 0;
    while i < |pieces|
      invariant 0 <= i <= |pieces|
      invariant Carried(provider.outcome, start, provider.calls, Sequence(ps[..i]), Pass)
    {
      ghost var mid := provider.calls;
      var step := RunPiece(provider, t, pieces[i]);
      SequenceStep(provider.outcome, start, mid, provider.calls, ps, i, step);
      if step.Err? {
        return step;
      }
      i := i + 1;
    }
    SequenceEnd(provider.outcome, start, provider.calls, ps, Pass);
    r := Pass;
  }

  /** One piece: stripped, and run unless that leaves nothing. */
  method RunPiece(provider: Provider, t: Target, piece: string) returns (r: Outcome)
    modifies provider
    ensures Carried(provider.outcome, old(provider.calls), provider.calls, PiecePlan(t, piece), r)
  {
    var sql := Strip(piece, Blank);
    if sql == [] {
      CarriedToEnd(provider.outcome, provider.calls, Done);
      assert provider.calls + [] == provider.calls;
      return Pass;
    }
    var run := Execution(t, sql);
    CarriedSingle(provider.outcome, provider.calls, run);
    r := Call(provider, run);
  }

  /**
   * `_get_ddl_source_file_contents` after its `get_object` call. `Body` is a stream, which
   * `_check_missing_field` always finds truthy; it is given here as the `Str` of its decoded
   * text, so an empty file passes. Any other value is checked as it stands: a falsy one is
   * missing, and a truthy one has no `read` (AttributeError).
   */
  function FileText(resp: Value): (r: Result<string>)
    ensures r.Ok? <==> resp.Obj? && "Body" in resp.fields && resp.fields["Body"].Str?
    ensures r.Ok? ==> r.value == resp.fields["Body"].s
    ensures resp.Obj? && ("Body" !in resp.fields || !Truthy(resp.fields["Body"])) && r.Err? ==> r == Err(MalformedEvent)
    ensures resp.Obj? && "Body" in resp.fields && Truthy(resp.fields["Body"]) && r.Err? ==> r == Err(AttributeError)
  {
    if resp.Obj? && "Body" in resp.fields && resp.fields["Body"].Str? then Ok(resp.fields["Body"].s)
    else
      var _ :- CheckMissingField(resp, "Body");
      Err(AttributeError)
  }

  /** What follows an accepted `get_object` answering `stored`. */
  function AfterRead(stored: Value, t: Target): Plan {
    match FileText(stored)
    case Err(e) => Raise(e)
    case Ok(content) => DdlPlan(t, content)
  }

  /** The file is read (status-checked), then run; `stored` is what `get_object` answers. */
  function ReadPlan(bucket: string, file: string, stored: Value, t: Target): Plan {
    Then(Calls([S3(GetObject(bucket, file))]), AfterRead(stored, t))
  }

  /** An empty DDL file is read and then nothing runs: the handler ends without an error. */
  lemma EmptyFileRunsNothing(bucket: string, file: string, t: Target)
    ensures ReadPlan(bucket, file, Obj(map["Body" := Str("")]), t) == Calls([S3(GetObject(bucket, file))])
  {
    assert FileText(Obj(map["Body" := Str("")])) == Ok("");
    SingleStatementFile("");
    assert Strip("", Blank) == "";
  }

  /** `c` runs a clean statement on `t`'s cluster, with `t`'s secret and database. */
  predicate RunsOn(c: Request, t: Target) {
    c.ExecuteSql? && c.resourceArn == t.clusterArn && c.secretArn == t.secretArn && c.sqlDatabase == t.database && Clean(c.sql)
  }

  /**
   * Reading and running a file makes the read first; every later call executes a clean
   * statement of the file on `t`'s cluster, with `t`'s secret and database.
   */
  lemma ReadPlanCalls(bucket: string, file: string, stored: Value, t: Target)
    ensures var p := ReadPlan(bucket, file, stored, t);
      && p.calls != [] && p.calls[0] == S3(GetObject(bucket, file))
      && forall c | c in p.calls[1..] :: RunsOn(c, t)
  {
    var p := ReadPlan(bucket, file, stored, t);
    assert p.calls[1..] == AfterRead(stored, t).calls;
    var text := FileText(stored);
    if text.Ok? {
      var stmts := FileStatements(text.value);
      var cs := Executions(t, stmts);
      FileStatementsShape(text.value);
      forall c | c in cs ensures RunsOn(c, t) {
        var i :| 0 <= i < |cs| && cs[i] == c;
        assert Clean(stmts[i]);
      }
    }
  }

  /** Reading and running the file, carried out. */
  method ReadAndRun(provider: Provider, bucket: string, file: string, stored: Value, t: Target) returns (r: Outcome)
    modifies provider
    ensures Carried(provider.outcome, old(provider.calls), provider.calls, ReadPlan(bucket, file, stored, t), r)
  {
    ghost var before := provider.calls;
    var get := S3(GetObject(bucket, file));
    ghost var rest := AfterRead(stored, t);
    var read := Call(provider, get);
    if read.Err? {
      LeadFailed(provider.outcome, before, get, rest);
      return read;
    }
    var content := FileText(stored);
    if content.Err? {
      CarriedToEnd(provider.outcome, provider.calls, rest);
      assert provider.calls + [] == provider.calls;
      r := Err(content.error);
    } else {
      r := RunDdl(provider, t, content.value);
    }
    LeadProceeded(provider.outcome, before, provider.calls, get, rest, r);
  }
}
