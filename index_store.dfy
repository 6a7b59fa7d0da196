/** The MySQL database behind the index service, reduced to what the index
    service's statements observe (services/index/index.go): one namespace of
    tables, each either a per-tag index table of rows keyed by file name or a
    per-user meta table holding a set of tags. Every statement can also fail
    for reasons outside this model (a lost connection, a full disk): the
    database carries a fault oracle naming, per statement, the error it fails
    with, if any. A failing statement changes nothing. */
module IndexStore {
  import opened Basics
  import opened Records

  /** One row of an index table, apart from its primary key `name`, which
      is the key it is stored under: `bucket`, `timestamp`, `size`. */
  datatype Row = Row(bucket: string, timestamp: Time, size: Uint64)

  datatype Table = IndexTable(rows: map<string, Row>) | MetaTable(tags: set<string>)

  /** A *mysql.MySQLError with its number, or any other driver error. */
  datatype SqlError = MySqlError(number: int) | DriverError(reason: string)

  const ErTableExists := 1050
  const ErBadField := 1054
  const ErDupEntry := 1062
  const ErParse := 1064
  const ErNoSuchTable := 1146

  /** The statements the index service issues. `values` is the VALUES text
      the service built for `files`. */
  datatype Stmt =
    | CreateMetaIfMissing(table: string)
    | ProbeName(table: string)
    | CreateIndex(table: string)
    | InsertTag(table: string, tag: string)
    | ReplaceRows(table: string, values: string, files: seq<Reply>)
    | SelectRows(table: string)
    | ScanRows(table: string)
    | SelectTags(table: string)
    | ScanTags(table: string)

  type Tables = map<string, Table>

  datatype Outcome = Outcome(tables: Tables, err: Option<SqlError>)

  /** The row a file is stored as. */
  function RowOf(f: Reply): (r: Row)
    ensures r.bucket == f.bucket && r.timestamp == f.timestamp && r.size == f.size
  {
    Row(f.bucket, f.timestamp, f.size)
  }

  /** REPLACE keyed on `name`: the files are applied in order, each one
      replacing any row with its name. */
  function Upsert(rows: map<string, Row>, files: seq<Reply>): map<string, Row>
    decreases |files|
  {
    if files == [] then rows
    else
      var f := files[|files| - 1];
      Upsert(rows, files[..|files| - 1])[f.name := RowOf(f)]
  }

  /** The last file of the batch with the given name. */
  function LastWith(files: seq<Reply>, name: string): (r: Option<Reply>)
    ensures r.Some? ==> r.value in files && r.value.name == name
    ensures r.None? ==> forall f :: f in files ==> f.name != name
    decreases |files|
  {
    if files == [] then None
    else if files[|files| - 1].name == name then Some(files[|files| - 1])
    else LastWith(files[..|files| - 1], name)
  }

  /** Replace-by-name: every name of the batch maps to the row of the last
      file carrying it; every other row is untouched. */
  lemma {:induction false} UpsertLastWins(rows: map<string, Row>, files: seq<Reply>, name: string)
    ensures LastWith(files, name).Some? ==>
      name in Upsert(rows, files) && Upsert(rows, files)[name] == RowOf(LastWith(files, name).value)
    ensures LastWith(files, name).None? ==>
      (name in Upsert(rows, files) <==> name in rows)
      && (name in rows ==> Upsert(rows, files)[name] == rows[name])
    decreases |files|
  {
    if files != [] {
      UpsertLastWins(rows, files[..|files| - 1], name);
    }
  }

  /** What a write statement does to the tables, given the fault the
      environment injects into it. */
  function Run(tables: Tables, s: Stmt, fault: Option<SqlError>): (o: Outcome)
    ensures o.err.Some? ==> o.tables == tables
    ensures fault.Some? ==> o.err == fault
  {
    if fault.Some? then Outcome(tables, fault)
    else
      match s
      case CreateMetaIfMissing(t) =>
        if t in tables then Outcome(tables, None) else Outcome(tables[t := MetaTable({})], None)
      case CreateIndex(t) =>
        if t in tables then Outcome(tables, Some(MySqlError(ErTableExists)))
        else Outcome(tables[t := IndexTable(map[])], None)
      case InsertTag(t, tag) =>
        if t !in tables then Outcome(tables, Some(MySqlError(ErNoSuchTable)))
        else if !tables[t].MetaTable? then Outcome(tables, Some(MySqlError(ErBadField)))
        else if tag in tables[t].tags then Outcome(tables, Some(MySqlError(ErDupEntry)))
        else Outcome(tables[t := MetaTable(tables[t].tags + {tag})], None)
      case ReplaceRows(t, values, files) =>
        if values == "" then Outcome(tables, Some(MySqlError(ErParse)))
        else if t !in tables then Outcome(tables, Some(MySqlError(ErNoSuchTable)))
        else if !tables[t].IndexTable? then Outcome(tables, Some(MySqlError(ErBadField)))
        else Outcome(tables[t := IndexTable(Upsert(tables[t].rows, files))], None)
      case _ => Outcome(tables, None)
  }

  /** The error a read statement reports, if any. */
  function QueryError(tables: Tables, s: Stmt, fault: Option<SqlError>): (r: Option<SqlError>)
    ensures fault.Some? ==> r == fault
  {
    if fault.Some? then fault
    else
      match s
      case ProbeName(t) =>
        if t !in tables then Some(MySqlError(ErNoSuchTable))
        else if !tables[t].IndexTable? then Some(MySqlError(ErBadField))
        else None
      case SelectRows(t) =>
        if t !in tables then Some(MySqlError(ErNoSuchTable))
        else if !tables[t].IndexTable? then Some(MySqlError(ErBadField))
        else None
      case SelectTags(t) =>
        if t !in tables then Some(MySqlError(ErNoSuchTable))
        else if !tables[t].MetaTable? then Some(MySqlError(ErBadField))
        else None
      case _ => None
  }

  /** `o` lists the elements of `s`, each once, in some order. */
  predicate Enumerates(o: seq<string>, s: set<string>) {
    (forall i, j :: 0 <= i < j < |o| ==> o[i] != o[j])
    && (forall i :: 0 <= i < |o| ==> o[i] in s)
    && (forall x :: x in s ==> x in o)
  }

  /** Every finite set can be listed. */
  lemma {:induction false} EnumerationExists(s: set<string>)
    ensures exists o :: Enumerates(o, s)
    decreases |s|
  {
    if s == {} {
      assert Enumerates([], s);
    } else {
      var x :| x in s;
      EnumerationExists(s - {x});
      var o :| Enumerates(o, s - {x});
      assert Enumerates([x] + o, s);
    }
  }

  /** `rows` lists every row of `m` once, each with its name. */
  predicate RowList(rows: seq<(string, Row)>, m: map<string, Row>) {
    |rows| == |m|
    && (forall i :: 0 <= i < |rows| ==> rows[i].0 in m && m[rows[i].0] == rows[i].1)
    && (forall i, j :: 0 <= i < j < |rows| ==> rows[i].0 != rows[j].0)
    && (forall n :: n in m ==> exists i :: 0 <= i < |rows| && rows[i].0 == n)
  }

  /** sql.DB: the tables, and the faults the environment injects. */
  class Database {
    var tables: Tables
    const faults: Stmt -> Option<SqlError>

    constructor (tables0: Tables, faults0: Stmt -> Option<SqlError>)
      ensures tables == tables0 && faults == faults0
    {
      tables := tables0;
      faults := faults0;
    }

    /** db.Exec of a write statement. */
    method Exec(s: Stmt) returns (err: Option<SqlError>)
      modifies this
      ensures Outcome(tables, err) == Run(old(tables), s, faults(s))
    {
      var o := Run(tables, s, faults(s));
      tables := o.tables;
      err := o.err;
    }

    /** db.Query of a read statement, without consuming its rows. */
    method Query(s: Stmt) returns (err: Option<SqlError>)
      ensures err == QueryError(tables, s, faults(s))
    {
      err := QueryError(tables, s, faults(s));
    }

    /** The rows of an index table with their names, in the unspecified
        order a SELECT without ORDER BY returns them. */
    method Rows(t: string) returns (rows: seq<(string, Row)>)
      requires t in tables && tables[t].IndexTable?
      ensures RowList(rows, tables[t].rows)
    {
      var m := tables[t].rows;
      EnumerationExists(m.Keys);
      var names :| Enumerates(names, m.Keys);
      EnumerationSize(names, m.Keys);
      rows := [];
      var i := 0;
      while i < |names|
        invariant 0 <= i <= |names| && |rows| == i
        invariant forall k :: 0 <= k < i ==> rows[k] == (names[k], m[names[k]])
      {
        rows := rows + [(names[i], m[names[i]])];
        i := i + 1;
      }
    }

    /** The tags of a meta table, in the unspecified order a SELECT returns
        them. */
    method Tags(t: string) returns (tags: seq<string>)
      requires t in tables && tables[t].MetaTable?
      ensures Enumerates(tags, tables[t].tags)
    {
      EnumerationExists(tables[t].tags);
      tags :| Enumerates(tags, tables[t].tags);
    }
  }

  /** A listing of a set is as long as the set. */
  lemma {:induction false} EnumerationSize(o: seq<string>, s: set<string>)
    requires Enumerates(o, s)
    ensures |o| == |s|
    decreases |o|
  {
    if o != [] {
      var rest := o[1..];
      assert Enumerates(rest, s - {o[0]}) by {
        forall x | x in s - {o[0]}
          ensures x in rest
        {
          var i :| 0 <= i < |o| && o[i] == x;
          assert i != 0;
          assert rest[i - 1] == x;
        }
      }
      EnumerationSize(rest, s - {o[0]});
    } else {
      assert forall x :: x !in s;
      assert s == {};
    }
  }
}
