/**
 * pii-report: from the PII scan results in DynamoDB, keep the latest scan of each catalog
 * table, and write the sensitive columns it found back into the Glue Data Catalog as column
 * comments (`update_catalog_table`).
 */
module PiiReport {
  import opened Errors
  import opened Json
  import opened Text
  import opened Aws

  /** The table properties `get_table` returns that `update_table` does not accept back. */
  const DeleteProps := ["CreateTime", "UpdateTime", "CreatedBy", "IsRegisteredWithLakeFormation", "CatalogId", "VersionId", "DatabaseName"]

  const CommentLead := "Sensitive Data Element | "

  /** The longest column comment the handler writes. */
  const CommentLimit := 255

  // ---- the latest scan of each catalog table ----

  /** An entry of `catalog_tables_dict`: the table's database, and the latest scan time, parsed and as written. */
  datatype Latest = Latest(database: Value, stamp: int, timeStr: Value)

  /** A value Python can use as a dictionary key: lists, sets and dictionaries cannot. */
  predicate Hashable(v: Value) {
    !v.Arr? && !v.Obj?
  }

  /**
   * What the loop reads from one scan record: the table, the parsed time and the time as
   * written, and the database, which is only looked up for a table seen for the first time.
   */
  datatype Scan = Scan(table: Value, stamp: int, timeStr: Value, database: Result<Value>)

  /**
   * Reading a scan record: the table name, the timestamp and its parse with `stamp`
   * (`strptime` with DATE_FORMAT), in that order, then the dictionary lookup, which needs a
   * hashable table name.
   */
  function ScanOf(rec: Value, stamp: Value -> Result<int>): (r: Result<Scan>)
    ensures r.Ok? ==>
      && Key(rec, "data_catalog_table") == Ok(r.value.table) && Hashable(r.value.table)
      && Key(rec, "timestamp") == Ok(r.value.timeStr) && stamp(r.value.timeStr) == Ok(r.value.stamp)
      && r.value.database == Key(rec, "data_catalog_database")
  {
    var table :- Key(rec, "data_catalog_table");
    var timeStr :- Key(rec, "timestamp");
    var t :- stamp(timeStr);
    if !Hashable(table) then Err(TypeError) else Ok(Scan(table, t, timeStr, Key(rec, "data_catalog_database")))
  }

  /** The records as the loop reads them, one by one. */
  function ScanResults(recs: seq<Value>, stamp: Value -> Result<int>): (rs: seq<Result<Scan>>)
    ensures |rs| == |recs| && forall j | 0 <= j < |recs| :: rs[j] == ScanOf(recs[j], stamp)
  {
    seq(|recs|, j requires 0 <= j < |recs| => ScanOf(recs[j], stamp))
  }

  /** One pass of the loop: a new table takes the record's database and time; a known one takes its time only when it is later. */
  function Tally(tables: map<Value, Latest>, s: Scan): Result<map<Value, Latest>> {
    if s.table !in tables then
      var database :- s.database;
      Ok(tables[s.table := Latest(database, s.stamp, s.timeStr)])
    else if s.stamp > tables[s.table].stamp then Ok(tables[s.table := tables[s.table].(stamp := s.stamp, timeStr := s.timeStr)])
    else Ok(tables)
  }

  /** The dictionary after the loop over the read records, or the first error: a record that cannot be read, or a new table without a database. */
  function Tallied(rs: seq<Result<Scan>>): Result<map<Value, Latest>>
    decreases |rs|
  {
    if rs == [] then Ok(map[])
    else
      var tables :- Tallied(rs[..|rs| - 1]);
      var s :- rs[|rs| - 1];
      Tally(tables, s)
  }

  /** `catalog_tables_dict` after the loop over `recs`, or the error that stopped it. */
  function LatestPerTable(recs: seq<Value>, stamp: Value -> Result<int>): Result<map<Value, Latest>> {
    Tallied(ScanResults(recs, stamp))
  }

  /**
   * One record: a table seen for the first time gets the record's database and time; a table
   * seen before keeps its database, and takes the record's time only when it is strictly later.
   * No other table changes.
   */
  lemma TallyStep(tables: map<Value, Latest>, s: Scan)
    requires Tally(tables, s).Ok?
    ensures var next := Tally(tables, s).value;
      && next.Keys == tables.Keys + {s.table}
      && (forall u | u in tables && u != s.table :: next[u] == tables[u])
      && (s.table !in tables ==> s.database.Ok? && next[s.table] == Latest(s.database.value, s.stamp, s.timeStr))
      && (s.table in tables ==> next[s.table].database == tables[s.table].database)
      && (s.table in tables && s.stamp > tables[s.table].stamp ==>
            next[s.table].stamp == s.stamp && next[s.table].timeStr == s.timeStr)
      && (s.table in tables && s.stamp <= tables[s.table].stamp ==> next[s.table] == tables[s.table])
  {
  }

  predicate AllRead(rs: seq<Result<Scan>>) {
    forall j | 0 <= j < |rs| :: rs[j].Ok?
  }

  /** The index `j` holds the first record for its table. */
  predicate FirstFor(rs: seq<Result<Scan>>, j: nat)
    requires j < |rs| && AllRead(rs)
  {
    forall k | 0 <= k < j :: rs[k].value.table != rs[j].value.table
  }

  /** One record more: the dictionary so far, then that record's pass. */
  lemma TalliedSnoc(rs: seq<Result<Scan>>)
    requires rs != [] && Tallied(rs).Ok?
    ensures var pre := rs[..|rs| - 1];
      && Tallied(pre).Ok? && rs[|rs| - 1].Ok? && Tally(Tallied(pre).value, rs[|rs| - 1].value) == Tallied(rs)
      && forall j | 0 <= j < |pre| :: pre[j] == rs[j]
  {
  }

  /** Every record was read, and every table a record names is in the dictionary. */
  lemma {:induction false} TalliedCovers(rs: seq<Result<Scan>>)
    requires Tallied(rs).Ok?
    ensures AllRead(rs) && forall j | 0 <= j < |rs| :: rs[j].value.table in Tallied(rs).value
    decreases |rs|
  {
    if rs != [] {
      var n := |rs| - 1;
      TalliedSnoc(rs);
      TalliedCovers(rs[..n]);
      TallyStep(Tallied(rs[..n]).value, rs[n].value);
    }
  }

  /** Each table's time is no earlier than that of any of its records. */
  lemma {:induction false} LatestIsMaximum(rs: seq<Result<Scan>>)
    requires Tallied(rs).Ok?
    ensures AllRead(rs) && forall j | 0 <= j < |rs| :: rs[j].value.table in Tallied(rs).value
    ensures forall j | 0 <= j < |rs| :: rs[j].value.stamp <= Tallied(rs).value[rs[j].value.table].stamp
    decreases |rs|
  {
    TalliedCovers(rs);
    if rs != [] {
      var n := |rs| - 1;
      TalliedSnoc(rs);
      LatestIsMaximum(rs[..n]);
      TallyStep(Tallied(rs[..n]).value, rs[n].value);
    }
  }

  /** Each table in the dictionary is named by a record, whose time and time string it holds. */
  lemma {:induction false} LatestAttained(rs: seq<Result<Scan>>)
    requires Tallied(rs).Ok?
    ensures AllRead(rs)
    ensures forall t | t in Tallied(rs).value :: exists j | 0 <= j < |rs| :: (rs[j].value.table == t
      && rs[j].value.stamp == Tallied(rs).value[t].stamp && rs[j].value.timeStr == Tallied(rs).value[t].timeStr)
    decreases |rs|
  {
    TalliedCovers(rs);
    if rs != [] {
      var n := |rs| - 1;
      var pre := rs[..n];
      TalliedSnoc(rs);
      LatestAttained(pre);
      var m0 := Tallied(pre).value;
      var m := Tallied(rs).value;
      var s := rs[n].value;
      TallyStep(m0, s);
      forall t | t in m
        ensures exists j | 0 <= j < |rs| :: (rs[j].value.table == t
          && rs[j].value.stamp == m[t].stamp && rs[j].value.timeStr == m[t].timeStr)
      {
        if t == s.table && (t !in m0 || s.stamp > m0[t].stamp) {
          assert rs[n].value.table == t;
        } else {
          var j :| 0 <= j < n && pre[j].value.table == t && pre[j].value.stamp == m0[t].stamp && pre[j].value.timeStr == m0[t].timeStr;
          assert rs[j].value.table == t;
        }
      }
    }
  }

  /** The first record seen for a table fixes its database: later records never replace it. */
  lemma {:induction false} FirstFixesDatabase(rs: seq<Result<Scan>>)
    requires Tallied(rs).Ok?
    ensures AllRead(rs) && forall j | 0 <= j < |rs| :: rs[j].value.table in Tallied(rs).value
    ensures forall j | 0 <= j < |rs| && FirstFor(rs, j) ::
      rs[j].value.database == Ok(Tallied(rs).value[rs[j].value.table].database)
    decreases |rs|
  {
    TalliedCovers(rs);
    if rs != [] {
      var n := |rs| - 1;
      var pre := rs[..n];
      TalliedSnoc(rs);
      FirstFixesDatabase(pre);
      LatestAttained(pre);
      var m0 := Tallied(pre).value;
      var s := rs[n].value;
      TallyStep(m0, s);
      if s.table in m0 {
        var k :| 0 <= k < n && pre[k].value.table == s.table && pre[k].value.stamp == m0[s.table].stamp && pre[k].value.timeStr == m0[s.table].timeStr;
        assert rs[k].value.table == rs[n].value.table;
        assert !FirstFor(rs, n);
      }
      forall j | 0 <= j < n && FirstFor(rs, j)
        ensures rs[j].value.database == Ok(Tallied(rs).value[rs[j].value.table].database)
      {
        assert FirstFor(pre, j);
      }
    }
  }

  /** Of several records of a table at its latest time, the time string of the first one is kept. */
  lemma {:induction false} EarliestOfLatestKept(rs: seq<Result<Scan>>)
    requires Tallied(rs).Ok?
    ensures AllRead(rs) && forall j | 0 <= j < |rs| :: rs[j].value.table in Tallied(rs).value
    ensures forall j | 0 <= j < |rs| && rs[j].value.stamp == Tallied(rs).value[rs[j].value.table].stamp
        && (forall k | 0 <= k < j && rs[k].value.table == rs[j].value.table :: rs[k].value.stamp < rs[j].value.stamp) ::
      Tallied(rs).value[rs[j].value.table].timeStr == rs[j].value.timeStr
    decreases |rs|
  {
    TalliedCovers(rs);
    if rs != [] {
      var n := |rs| - 1;
      var pre := rs[..n];
      TalliedSnoc(rs);
      EarliestOfLatestKept(pre);
      LatestIsMaximum(pre);
      LatestAttained(pre);
      var m0 := Tallied(pre).value;
      var m := Tallied(rs).value;
      var s := rs[n].value;
      TallyStep(m0, s);
      forall j | 0 <= j < |rs| && rs[j].value.stamp == m[rs[j].value.table].stamp
          && (forall k | 0 <= k < j && rs[k].value.table == rs[j].value.table :: rs[k].value.stamp < rs[j].value.stamp)
        ensures m[rs[j].value.table].timeStr == rs[j].value.timeStr
      {
        var t := rs[j].value.table;
        if j == n && t in m0 {
          var k :| 0 <= k < n && pre[k].value.table == t && pre[k].value.stamp == m0[t].stamp && pre[k].value.timeStr == m0[t].timeStr;
          assert rs[k].value.table == t;
        }
        if j < n && t == s.table {
          assert pre[j].value.stamp <= m0[t].stamp;
        }
      }
    }
  }

  /** The loop ends with the error of the first record it cannot take. */
  lemma {:induction false} TalliedStopped(rs: seq<Result<Scan>>, k: nat)
    requires k <= |rs| && Tallied(rs[..k]).Err?
    ensures Tallied(rs) == Tallied(rs[..k])
    decreases |rs| - k
  {
    if k == |rs| {
      assert rs[..k] == rs;
    } else {
      assert rs[..k + 1][..k] == rs[..k];
      TalliedStopped(rs, k + 1);
    }
  }

  /** The latest-timestamp loop of `lambda_handler`, over the scan records. */
  method LatestTables(recs: seq<Value>, stamp: Value -> Result<int>) returns (r: Result<map<Value, Latest>>)
    ensures r == LatestPerTable(recs, stamp)
  {
    ghost var rs := ScanResults(recs, stamp);
    var tables: map<Value, Latest> := map[];
    assert rs[..0] == [];
    for i := 0 to |recs|
      invariant Tallied(rs[..i]) == Ok(tables)
    {
      assert rs[..i + 1][..i] == rs[..i];
      var rec := recs[i];
      var table := Key(rec, "data_catalog_table");
      if table.Err? {
        TalliedStopped(rs, i + 1);
        return Err(table.error);
      }
      var timeStr := Key(rec, "timestamp");
      if timeStr.Err? {
        TalliedStopped(rs, i + 1);
        return Err(timeStr.error);
      }
      var t := stamp(timeStr.value);
      if t.Err? {
        TalliedStopped(rs, i + 1);
        return Err(t.error);
      }
      if !Hashable(table.value) {
        TalliedStopped(rs, i + 1);
        return Err(TypeError);
      }
      assert rs[i] == Ok(Scan(table.value, t.value, timeStr.value, Key(rec, "data_catalog_database")));
      if table.value !in tables {
        var database := Key(rec, "data_catalog_database");
        if database.Err? {
          TalliedStopped(rs, i + 1);
          return Err(database.error);
        }
        tables := tables[table.value := Latest(database.value, t.value, timeStr.value)];
      } else if t.value > tables[table.value].stamp {
        tables := tables[table.value := tables[table.value].(stamp := t.value, timeStr := timeStr.value)];
      }
    }
    assert rs[..|recs|] == rs;
    r := Ok(tables);
  }

  // ---- the PII columns of a table ----

  /** The key and the value one scan column puts into `pii_col_dict`. */
  datatype Entry = Entry(name: string, types: string)

  lemma LowerIdempotent(s: string)
    ensures Lower(Lower(s)) == Lower(s)
  {
    assert forall i | 0 <= i < |s| :: LowerChar(LowerChar(s[i])) == LowerChar(s[i]);
  }

  /**
   * `pii_col_dict[col["columnName"].lower()] = str(col["entityTypes"])`: the right-hand side is
   * read first; `show` is Python's `str`, which this model leaves abstract. The key is lower case.
   */
  function EntryOf(col: Value, show: Value -> string): (r: Result<Entry>)
    ensures r.Ok? ==>
      && Key(col, "entityTypes").Ok? && Key(col, "columnName").Ok? && col.fields["columnName"].Str?
      && r.value == Entry(Lower(col.fields["columnName"].s), show(col.fields["entityTypes"]))
      && Lower(r.value.name) == r.value.name
  {
    var types :- Key(col, "entityTypes");
    var name :- Key(col, "columnName");
    if !name.Str? then Err(AttributeError)
    else
      LowerIdempotent(name.s);
      Ok(Entry(Lower(name.s), show(types)))
  }

  /** The scan columns as the loop reads them, one by one. */
  function EntryResults(cols: seq<Value>, show: Value -> string): (es: seq<Result<Entry>>)
    ensures |es| == |cols| && forall j | 0 <= j < |cols| :: es[j] == EntryOf(cols[j], show)
  {
    seq(|cols|, j requires 0 <= j < |cols| => EntryOf(cols[j], show))
  }

  /** The dictionary after the loop over the read columns, or the first column that cannot be read. */
  function Collected(es: seq<Result<Entry>>): Result<map<string, string>>
    decreases |es|
  {
    if es == [] then Ok(map[])
    else
      var pii :- Collected(es[..|es| - 1]);
      var e :- es[|es| - 1];
      Ok(pii[e.name := e.types])
  }

  /** `pii_col_dict` after the loop over the scan's columns. */
  function PiiColumns(cols: seq<Value>, show: Value -> string): Result<map<string, string>> {
    Collected(EntryResults(cols, show))
  }

  /** Every column was read, and its key is in the dictionary. */
  lemma {:induction false} CollectedCovers(es: seq<Result<Entry>>)
    requires Collected(es).Ok?
    ensures (forall j | 0 <= j < |es| :: es[j].Ok?) && forall j | 0 <= j < |es| :: es[j].value.name in Collected(es).value
    decreases |es|
  {
    if es != [] {
      var n := |es| - 1;
      assert Collected(es[..n]).Ok? && es[n].Ok?;
      assert forall j | 0 <= j < n :: es[..n][j] == es[j];
      CollectedCovers(es[..n]);
    }
  }

  /** Every key of the dictionary is the key of some column. */
  lemma {:induction false} CollectedKeys(es: seq<Result<Entry>>)
    requires Collected(es).Ok?
    ensures forall j | 0 <= j < |es| :: es[j].Ok?
    ensures forall k | k in Collected(es).value :: exists j | 0 <= j < |es| :: es[j].value.name == k
    decreases |es|
  {
    CollectedCovers(es);
    if es != [] {
      var n := |es| - 1;
      var pre := es[..n];
      assert Collected(pre).Ok? && es[n].Ok?;
      CollectedKeys(pre);
      var pii := Collected(es).value;
      var e := es[n].value;
      assert pii == Collected(pre).value[e.name := e.types];
      forall k | k in pii
        ensures exists j | 0 <= j < |es| :: es[j].value.name == k
      {
        if k == e.name {
          assert es[n].value.name == k;
        } else {
          var j :| 0 <= j < n && pre[j].value.name == k;
          assert es[j].value.name == k;
        }
      }
    }
  }

  /** Under each key, the entity types of the last column with that key: a later duplicate overwrites. */
  lemma {:induction false} LastColumnWins(es: seq<Result<Entry>>)
    requires Collected(es).Ok?
    ensures (forall j | 0 <= j < |es| :: es[j].Ok?) && forall j | 0 <= j < |es| :: es[j].value.name in Collected(es).value
    ensures forall j | 0 <= j < |es| && (forall l | j < l < |es| :: es[l].value.name != es[j].value.name) ::
      Collected(es).value[es[j].value.name] == es[j].value.types
    decreases |es|
  {
    CollectedCovers(es);
    if es != [] {
      var n := |es| - 1;
      var pre := es[..n];
      assert Collected(pre).Ok? && es[n].Ok?;
      LastColumnWins(pre);
      assert forall j | 0 <= j < n :: pre[j] == es[j];
      assert Collected(es).value == Collected(pre).value[es[n].value.name := es[n].value.types];
    }
  }

  /** The keys of `pii_col_dict` are the columns' names, lowercased, and so are themselves lower case. */
  lemma PiiKeysLowerCase(cols: seq<Value>, show: Value -> string)
    requires PiiColumns(cols, show).Ok?
    ensures forall k | k in PiiColumns(cols, show).value ::
      && Lower(k) == k
      && exists j | 0 <= j < |cols| :: EntryOf(cols[j], show).Ok? && Lower(cols[j].fields["columnName"].s) == k
  {
    var es := EntryResults(cols, show);
    CollectedKeys(es);
    forall k | k in PiiColumns(cols, show).value
      ensures Lower(k) == k && exists j | 0 <= j < |cols| :: EntryOf(cols[j], show).Ok? && Lower(cols[j].fields["columnName"].s) == k
    {
      var j :| 0 <= j < |es| && es[j].value.name == k;
      assert EntryOf(cols[j], show).Ok?;
    }
  }

  /** The loop stops at the first column it cannot read. */
  lemma {:induction false} CollectedStopped(es: seq<Result<Entry>>, k: nat)
    requires k <= |es| && Collected(es[..k]).Err?
    ensures Collected(es) == Collected(es[..k])
    decreases |es| - k
  {
    if k == |es| {
      assert es[..k] == es;
    } else {
      assert es[..k + 1][..k] == es[..k];
      CollectedStopped(es, k + 1);
    }
  }

  /** The `pii_col_dict` loop of `update_catalog_table`. */
  method CollectPiiColumns(cols: seq<Value>, show: Value -> string) returns (r: Result<map<string, string>>)
    ensures r == PiiColumns(cols, show)
  {
    ghost var es := EntryResults(cols, show);
    var pii: map<string, string> := map[];
    assert es[..0] == [];
    for i := 0 to |cols|
      invariant Collected(es[..i]) == Ok(pii)
    {
      assert es[..i + 1][..i] == es[..i];
      var e := EntryOf(cols[i], show);
      if e.Err? {
        CollectedStopped(es, i + 1);
        return Err(e.error);
      }
      pii := pii[e.value.name := e.value.types];
    }
    assert es[..|cols|] == es;
    r := Ok(pii);
  }

  // ---- the column comments ----

  /** The comment for a sensitive column: the label and the entity types, cut to CommentLimit characters. */
  function Comment(types: string): (c: string)
    ensures |c| <= CommentLimit
    ensures c <= CommentLead + types
    ensures |CommentLead + types| <= CommentLimit ==> c == CommentLead + types
    ensures |CommentLead + types| > CommentLimit ==> |c| == CommentLimit
  {
    var full := CommentLead + types;
    if |full| > CommentLimit then full[..CommentLimit] else full
  }

  /** However long the entity types, the comment starts with the label. */
  lemma CommentLabelled(types: string)
    ensures CommentLead <= Comment(types)
  {
    var c := Comment(types);
    assert |CommentLead| <= |c|;
    assert c[..|CommentLead|] == (CommentLead + types)[..|CommentLead|];
  }

  /**
   * One column of the table: its Name is required; a Name equal to a key of `pii` sets the
   * column's Comment, and nothing else about any column changes.
   */
  function AnnotatedColumn(col: Value, pii: map<string, string>): (r: Result<Value>)
    ensures r.Ok? <==> col.Obj? && "Name" in col.fields
    ensures r.Ok? && col.fields["Name"].Str? && col.fields["Name"].s in pii ==>
      && r.value.Obj? && r.value.fields.Keys == col.fields.Keys + {"Comment"}
      && r.value.fields["Comment"] == Str(Comment(pii[col.fields["Name"].s]))
      && forall k | k in col.fields && k != "Comment" :: r.value.fields[k] == col.fields[k]
    ensures r.Ok? && !(col.fields["Name"].Str? && col.fields["Name"].s in pii) ==> r.value == col
  {
    var name :- Key(col, "Name");
    if name.Str? && name.s in pii then Ok(Obj(col.fields["Comment" := Str(Comment(pii[name.s]))])) else Ok(col)
  }

  /** `update_cols` after the loop over the catalog columns. */
  function Annotated(cols: seq<Value>, pii: map<string, string>): Result<seq<Value>>
    decreases |cols|
  {
    if cols == [] then Ok([])
    else
      var done :- Annotated(cols[..|cols| - 1], pii);
      var c :- AnnotatedColumn(cols[|cols| - 1], pii);
      Ok(done + [c])
  }

  /**
   * The loop fails exactly when a column has no Name; otherwise it keeps the number and the
   * order of the columns, and annotates each one on its own.
   */
  lemma {:induction false} AnnotatedMeaning(cols: seq<Value>, pii: map<string, string>)
    ensures Annotated(cols, pii).Ok? <==> forall j | 0 <= j < |cols| :: AnnotatedColumn(cols[j], pii).Ok?
    ensures Annotated(cols, pii).Ok? ==>
      && |Annotated(cols, pii).value| == |cols|
      && forall j | 0 <= j < |cols| :: Annotated(cols, pii).value[j] == AnnotatedColumn(cols[j], pii).value
    decreases |cols|
  {
    if cols != [] {
      var n := |cols| - 1;
      var pre := cols[..n];
      AnnotatedMeaning(pre, pii);
      assert forall j | 0 <= j < n :: pre[j] == cols[j];
    }
  }

  /**
   * The names are compared as they are, with keys that are lower case: a column whose Name has
   * an upper-case letter is never annotated.
   */
  lemma OnlyLowerCaseNamesMatch(cols: seq<Value>, show: Value -> string, col: Value)
    requires PiiColumns(cols, show).Ok? && AnnotatedColumn(col, PiiColumns(cols, show).value).Ok?
    requires AnnotatedColumn(col, PiiColumns(cols, show).value).value != col
    ensures col.fields["Name"].Str? && Lower(col.fields["Name"].s) == col.fields["Name"].s
  {
    PiiKeysLowerCase(cols, show);
  }

  lemma {:induction false} AnnotatedStopped(cols: seq<Value>, pii: map<string, string>, k: nat)
    requires k <= |cols| && Annotated(cols[..k], pii).Err?
    ensures Annotated(cols, pii) == Annotated(cols[..k], pii)
    decreases |cols| - k
  {
    if k == |cols| {
      assert cols[..k] == cols;
    } else {
      assert cols[..k + 1][..k] == cols[..k];
      AnnotatedStopped(cols, pii, k + 1);
    }
  }

  /** The `update_cols` loop of `update_catalog_table`. */
  method AnnotateColumns(cols: seq<Value>, pii: map<string, string>) returns (r: Result<seq<Value>>)
    ensures r == Annotated(cols, pii)
  {
    var updated: seq<Value> := [];
    assert cols[..0] == [];
    for i := 0 to |cols|
      invariant Annotated(cols[..i], pii) == Ok(updated)
    {
      assert cols[..i + 1][..i] == cols[..i];
      var c := AnnotatedColumn(cols[i], pii);
      if c.Err? {
        AnnotatedStopped(cols, pii, i + 1);
        return Err(c.error);
      }
      updated := updated + [c.value];
    }
    assert cols[..|cols|] == cols;
    r := Ok(updated);
  }

  /**
   * `for col_obj in catalog_cols`: a list gives its items; iterating a non-empty string or
   * dictionary gives strings, which the first `col_obj["Name"]` rejects; other values cannot be iterated.
   */
  function AnnotatedAll(cols: Value, pii: map<string, string>): (r: Result<seq<Value>>)
    ensures cols.Arr? ==> r == Annotated(cols.items, pii)
    ensures !cols.Arr? ==> r == if cols == Str("") || cols == Obj(map[]) then Ok([]) else Err(TypeError)
  {
    match cols
    case Arr(items) => Annotated(items, pii)
    case Str(s) => if s == "" then Ok([]) else Err(TypeError)
    case Obj(m) => if m == map[] then Ok([]) else Err(TypeError)
    case _ => Err(TypeError)
  }

  // ---- the update_table input ----

  /** The arguments of `update_table`: the table input and the version read before it was removed. */
  datatype TableUpdate = TableUpdate(input: Value, version: Value)

  /** No property is named twice. */
  predicate Distinct(props: seq<string>) {
    forall i, j | 0 <= i < j < |props| :: props[i] != props[j]
  }

  /**
   * `del update_table_dict[p]` for each of `props` in turn: KeyError for the first one that is
   * not there (or no longer there); otherwise exactly those keys are gone and the rest keep
   * their values. Distinct properties that are all there are all deleted.
   */
  function Deleted(fields: map<string, Value>, props: seq<string>): (r: Result<map<string, Value>>)
    ensures r.Ok? ==>
      && (forall i | 0 <= i < |props| :: props[i] in fields)
      && (forall k :: k in r.value <==> k in fields && k !in props)
      && (forall k | k in r.value :: r.value[k] == fields[k])
    ensures Distinct(props) && (forall i | 0 <= i < |props| :: props[i] in fields) ==> r.Ok?
    ensures r.Err? ==> r.error.KeyError? && r.error.key in props
    decreases |props|
  {
    if props == [] then Ok(fields)
    else if props[0] !in fields then Err(KeyError(props[0]))
    else
      var r := Deleted(fields - {props[0]}, props[1..]);
      assert forall i | 1 <= i < |props| :: props[1..][i - 1] == props[i];
      r
  }

  /** The deletion loop of `update_catalog_table`. */
  method StripProps(fields: map<string, Value>) returns (r: Result<map<string, Value>>)
    ensures r == Deleted(fields, DeleteProps)
  {
    var d := fields;
    for i := 0 to |DeleteProps|
      invariant Deleted(fields, DeleteProps) == Deleted(d, DeleteProps[i..])
    {
      assert DeleteProps[i..][1..] == DeleteProps[i + 1..];
      if DeleteProps[i] !in d {
        return Err(KeyError(DeleteProps[i]));
      }
      d := d - {DeleteProps[i]};
    }
    r := Ok(d);
  }

  /**
   * The stripped table with its storage descriptor's columns replaced by the annotated
   * columns; nothing else about the table or the descriptor changes.
   */
  function Reassembled(fields: map<string, Value>, pii: map<string, string>): (r: Result<Value>)
    ensures r.Ok? ==>
      && "StorageDescriptor" in fields && fields["StorageDescriptor"].Obj?
      && "Columns" in fields["StorageDescriptor"].fields
      && AnnotatedAll(fields["StorageDescriptor"].fields["Columns"], pii).Ok?
    ensures r.Ok? ==>
      && r.value.Obj? && r.value.fields.Keys == fields.Keys
      && (forall k | k in fields && k != "StorageDescriptor" :: r.value.fields[k] == fields[k])
    ensures r.Ok? ==> var sd := fields["StorageDescriptor"];
      (r.value.fields["StorageDescriptor"].Obj? && r.value.fields["StorageDescriptor"].fields.Keys == sd.fields.Keys
      && (forall k | k in sd.fields && k != "Columns" :: r.value.fields["StorageDescriptor"].fields[k] == sd.fields[k])
      && r.value.fields["StorageDescriptor"].fields["Columns"] == Arr(AnnotatedAll(sd.fields["Columns"], pii).value))
  {
    var sd :- Key(Obj(fields), "StorageDescriptor");
    var cols :- Key(sd, "Columns");
    var updated :- AnnotatedAll(cols, pii);
    Ok(Obj(fields["StorageDescriptor" := Obj(sd.fields["Columns" := Arr(updated)])]))
  }

  /**
   * From the `Table` of the `get_table` response, deleting `props`: a falsy table raises
   * Exception; the version is read, the properties deleted, and the storage descriptor's columns annotated.
   */
  function TableInputWith(table: Value, props: seq<string>, pii: map<string, string>): Result<TableUpdate> {
    if !Truthy(table) then Err(Failure)
    else
      var version :- Key(table, "VersionId");
      var fields :- Deleted(table.fields, props);
      var input :- Reassembled(fields, pii);
      Ok(TableUpdate(input, version))
  }

  /** The `update_table` arguments `update_catalog_table` builds, deleting DeleteProps. */
  function TableInput(table: Value, pii: map<string, string>): Result<TableUpdate> {
    TableInputWith(table, DeleteProps, pii)
  }

  /** A missing or empty Table raises Exception. */
  lemma MissingTableRaises(table: Value, pii: map<string, string>)
    requires !Truthy(table)
    ensures TableInput(table, pii) == Err(Failure)
  {
  }

  /** A successful input is assembled from the version, the stripped table and its reassembly. */
  lemma TableInputParts(table: Value, props: seq<string>, pii: map<string, string>)
    requires TableInputWith(table, props, pii).Ok?
    ensures && table.Obj? && "VersionId" in table.fields
      && Deleted(table.fields, props).Ok? && Reassembled(Deleted(table.fields, props).value, pii).Ok?
      && TableInputWith(table, props, pii).value
           == TableUpdate(Reassembled(Deleted(table.fields, props).value, pii).value, table.fields["VersionId"])
  {
  }

  /**
   * A successful update input: the table had every property to delete, none of which is sent
   * back; the version sent separately is the table's VersionId; and every other property but
   * the storage descriptor is sent unchanged.
   */
  lemma TableInputStripped(table: Value, props: seq<string>, pii: map<string, string>)
    requires TableInputWith(table, props, pii).Ok?
    ensures table.Obj? && forall i | 0 <= i < |props| :: props[i] in table.fields
    ensures var u := TableInputWith(table, props, pii).value;
      && u.version == table.fields["VersionId"]
      && u.input.Obj?
      && (forall i | 0 <= i < |props| :: props[i] !in u.input.fields)
      && (forall k | k in table.fields && k !in props && k != "StorageDescriptor" ::
            k in u.input.fields && u.input.fields[k] == table.fields[k])
  {
    TableInputParts(table, props, pii);
    var fields := Deleted(table.fields, props).value;
    var input := Reassembled(fields, pii).value;
    assert input.fields.Keys == fields.Keys;
  }

  /** The storage descriptor sent back holds the annotated columns of the table's own descriptor. */
  lemma TableInputColumns(table: Value, props: seq<string>, pii: map<string, string>)
    requires TableInputWith(table, props, pii).Ok? && "StorageDescriptor" !in props
    ensures table.Obj? && "StorageDescriptor" in table.fields
    ensures var sd := table.fields["StorageDescriptor"];
      var input := TableInputWith(table, props, pii).value.input;
      && sd.Obj? && "Columns" in sd.fields && AnnotatedAll(sd.fields["Columns"], pii).Ok?
      && input.Obj? && "StorageDescriptor" in input.fields && input.fields["StorageDescriptor"].Obj?
      && input.fields["StorageDescriptor"].fields["Columns"] == Arr(AnnotatedAll(sd.fields["Columns"], pii).value)
  {
    TableInputParts(table, props, pii);
    var fields := Deleted(table.fields, props).value;
    assert "StorageDescriptor" in fields;
  }

  /**
   * A table with every property to delete (named once each) and a storage descriptor whose
   * columns can be annotated gives an update input.
   */
  lemma TableInputSucceeds(table: Value, props: seq<string>, pii: map<string, string>)
    requires Distinct(props) && "StorageDescriptor" !in props
    requires table.Obj? && table.fields != map[] && forall i | 0 <= i < |props| :: props[i] in table.fields
    requires "VersionId" in table.fields
    requires "StorageDescriptor" in table.fields && Key(table.fields["StorageDescriptor"], "Columns").Ok?
    requires AnnotatedAll(table.fields["StorageDescriptor"].fields["Columns"], pii).Ok?
    ensures TableInputWith(table, props, pii).Ok?
  {
    var fields := Deleted(table.fields, props).value;
    assert "StorageDescriptor" in fields && fields["StorageDescriptor"] == table.fields["StorageDescriptor"];
  }

  /** DeleteProps names seven distinct properties, VersionId among them, and not the storage descriptor. */
  lemma DeletePropsShape()
    ensures Distinct(DeleteProps) && "StorageDescriptor" !in DeleteProps && DeleteProps[5] == "VersionId"
  {
  }

  /** The table part of `update_catalog_table`, after `get_table`. */
  method BuildTableInput(table: Value, pii: map<string, string>) returns (r: Result<TableUpdate>)
    ensures r == TableInput(table, pii)
  {
    if !Truthy(table) {
      return Err(Failure);
    }
    var version := Key(table, "VersionId");
    if version.Err? {
      return Err(version.error);
    }
    var fields := StripProps(table.fields);
    if fields.Err? {
      return Err(fields.error);
    }
    var sd := Key(Obj(fields.value), "StorageDescriptor");
    if sd.Err? {
      return Err(sd.error);
    }
    var cols := Key(sd.value, "Columns");
    if cols.Err? {
      return Err(cols.error);
    }
    var updated: Result<seq<Value>>;
    if cols.value.Arr? {
      updated := AnnotateColumns(cols.value.items, pii);
    } else {
      updated := AnnotatedAll(cols.value, pii);
    }
    if updated.Err? {
      return Err(updated.error);
    }
    var input := Obj(fields.value["StorageDescriptor" := Obj(sd.value.fields["Columns" := Arr(updated.value)])]);
    r := Ok(TableUpdate(input, version.value));
  }

  // ---- update_catalog_table ----

  /** What follows `get_table`, whose `Table` is `found`: the update, with the table's own database. */
  function AfterGetTable(database: Value, account: Value, pii: map<string, string>, found: Value): Plan {
    match TableInput(found, pii)
    case Err(e) => Raise(e)
    case Ok(u) => Calls([Glue(UpdateTable(account, database, u.input, u.version))])
  }

  /** What `update_catalog_table` does when its calls go through: the PII columns, `get_table`, then `update_table`. */
  function UpdatePlan(table: Value, database: Value, account: Value, cols: seq<Value>, show: Value -> string, found: Value): Plan {
    match PiiColumns(cols, show)
    case Err(e) => Raise(e)
    case Ok(pii) => Then(Calls([Glue(GetTable(account, database, table))]), AfterGetTable(database, account, pii, found))
  }

  /**
   * The calls of `update_catalog_table`: an unreadable scan column raises before any call; a
   * missing table raises after `get_table`; otherwise it is one `get_table` and one `update_table`
   * of the same database, with the input and version the table gives.
   */
  lemma UpdateCalls(table: Value, database: Value, account: Value, cols: seq<Value>, show: Value -> string, found: Value)
    ensures PiiColumns(cols, show).Err? ==> UpdatePlan(table, database, account, cols, show, found) == Raise(PiiColumns(cols, show).error)
    ensures PiiColumns(cols, show).Ok? && !Truthy(found) ==>
      UpdatePlan(table, database, account, cols, show, found) == Plan([Glue(GetTable(account, database, table))], Some(Failure))
    ensures PiiColumns(cols, show).Ok? && TableInput(found, PiiColumns(cols, show).value).Ok? ==>
      var u := TableInput(found, PiiColumns(cols, show).value).value;
      UpdatePlan(table, database, account, cols, show, found)
        == Calls([Glue(GetTable(account, database, table)), Glue(UpdateTable(account, database, u.input, u.version))])
  {
  }

  method PutTable(provider: Provider, database: Value, account: Value, pii: map<string, string>, found: Value)
    returns (r: Outcome)
    modifies provider
    ensures Carried(provider.outcome, old(provider.calls), provider.calls, AfterGetTable(database, account, pii, found), r)
  {
    ghost var before := provider.calls;
    var u := BuildTableInput(found, pii);
    if u.Err? {
      CarriedToEnd(provider.outcome, before, AfterGetTable(database, account, pii, found));
      assert before + [] == before;
      return Err(u.error);
    }
    var c := Glue(UpdateTable(account, database, u.value.input, u.value.version));
    r := Call(provider, c);
    CarriedSingle(provider.outcome, before, c);
  }

  /** `update_catalog_table`; `found` is what `get_table` returns under `Table` (Null when absent). */
  method UpdateCatalogTable(provider: Provider, table: Value, database: Value, account: Value, cols: seq<Value>,
                            show: Value -> string, found: Value) returns (r: Outcome)
    modifies provider
    ensures Carried(provider.outcome, old(provider.calls), provider.calls, UpdatePlan(table, database, account, cols, show, found), r)
  {
    ghost var before := provider.calls;
    var pii := CollectPiiColumns(cols, show);
    if pii.Err? {
      CarriedToEnd(provider.outcome, before, UpdatePlan(table, database, account, cols, show, found));
      assert before + [] == before;
      return Err(pii.error);
    }
    var c := Glue(GetTable(account, database, table));
    ghost var q := AfterGetTable(database, account, pii.value, found);
    r := Call(provider, c);
    if r.Err? {
      LeadFailed(provider.outcome, before, c, q);
      return;
    }
    r := PutTable(provider, database, account, pii.value, found);
    LeadProceeded(provider.outcome, before, provider.calls, c, q, r);
  }
}
