/** The tag index service (services/index/index.go): per user, one MySQL
    table per tag named `user:tag`, holding one row per file name, and a
    meta table `user:meta` registering every tag the user has used. Tables
    are provisioned lazily on first use; a batch is stored with one REPLACE
    keyed on the file name; an index request is split by tag and applied tag
    by tag, stopping at the first failure; listings re-derive each file's
    storage keys from its name. */
module TagIndex {
  import opened Basics
  import opened Records
  import opened KeyModifier
  import opened IndexRequests
  import opened IndexStore

  /** The reserved tag naming the meta table. */
  const MetaTag := "meta"

  /** index_name */
  function IndexName(username: string, tag: string): string {
    username + ":" + tag
  }

  /** For one user, table names and tags correspond one to one. */
  lemma IndexNameInjective(username: string, t1: string, t2: string)
    ensures IndexName(username, t1) == IndexName(username, t2) <==> t1 == t2
  {
    if IndexName(username, t1) == IndexName(username, t2) {
      var n := |username| + 1;
      assert t1 == IndexName(username, t1)[n..];
      assert t2 == IndexName(username, t2)[n..];
    }
  }

  /** Across users the naming is ambiguous: user `a` with tag `b:c` and user
      `a:b` with tag `c` share one table. */
  lemma IndexNameCollision()
    ensures IndexName("a", "b:c") == IndexName("a:b", "c")
  {
  }

  datatype IndexError =
    | MetaCreateFailed(table: string, cause: SqlError)
    | NotAllowed(tag: string)
    | CreateFailed(table: string, cause: SqlError)
    | RegisterFailed(tag: string, meta: string, cause: SqlError)
    | InsertFailed(table: string, values: string, cause: SqlError)
    | ReadFailed(table: string, cause: SqlError)
    | MetaReadFailed(table: string, cause: SqlError)
    | ScanFailed(cause: SqlError)

  /** The tables after an operation, and the error it returned. */
  datatype Step = Step(tables: Tables, err: Option<IndexError>)

  /** index.LReply: one tag and its files. */
  datatype LReply = LReply(tag: string, keys: seq<Reply>)

  // The VALUES text of a REPLACE: one quoted tuple per file.

  /** One tuple, without its terminator; the timestamp is printed by
      `formatTime` (Go's %s on a time.Time). Nothing is escaped. */
  function Tuple(f: Reply, formatTime: Time -> string): string {
    "('" + f.bucket + "', '" + f.name + "', '" + formatTime(f.timestamp) + "', '" + Decimal(f.size) + "')"
  }

  /** The tuples joined by `,`. */
  function Joined(files: seq<Reply>, formatTime: Time -> string): string
    requires |files| > 0
    decreases |files|
  {
    if |files| == 1 then Tuple(files[0], formatTime)
    else Joined(files[..|files| - 1], formatTime) + "," + Tuple(files[|files| - 1], formatTime)
  }

  /** The VALUES text: the joined tuples and a closing `;`, or nothing at
      all for an empty batch. */
  function ValuesText(files: seq<Reply>, formatTime: Time -> string): string {
    if files == [] then "" else Joined(files, formatTime) + ";"
  }

  /** The text the serialising loop has built after `n` files: each tuple
      followed by `,`, or by `;` when it is the batch's last. */
  function Written(files: seq<Reply>, n: nat, formatTime: Time -> string): string
    requires n <= |files|
    decreases n
  {
    if n == 0 then ""
    else Written(files, n - 1, formatTime) + Tuple(files[n - 1], formatTime) + [if n == |files| then ';' else ',']
  }

  lemma {:induction false} WrittenPrefix(files: seq<Reply>, n: nat, formatTime: Time -> string)
    requires 0 < n < |files|
    ensures Written(files, n, formatTime) == Joined(files[..n], formatTime) + ","
    decreases n
  {
    if n > 1 {
      WrittenPrefix(files, n - 1, formatTime);
      assert files[..n][..n - 1] == files[..n - 1];
    }
  }

  /** The loop's text is the joined tuples closed by `;`; an empty batch
      gives the empty string. */
  lemma {:induction false} WrittenIsValuesText(files: seq<Reply>, formatTime: Time -> string)
    ensures Written(files, |files|, formatTime) == ValuesText(files, formatTime)
  {
    var n := |files|;
    if n > 1 {
      WrittenPrefix(files, n - 1, formatTime);
      assert files[..n - 1] == files[..n][..n - 1];
      assert files[..n] == files;
    }
  }

  /** The VALUES loop of IndexFiles. */
  method Serialize(files: seq<Reply>, formatTime: Time -> string) returns (values: string)
    ensures values == ValuesText(files, formatTime)
    ensures values == "" <==> files == []
  {
    values := "";
    var i := 0;
    while i < |files|
      invariant 0 <= i <= |files|
      invariant values == Written(files, i, formatTime)
    {
      var fin := if i == |files| - 1 then ';' else ',';
      values := values + Tuple(files[i], formatTime) + [fin];
      i := i + 1;
    }
    WrittenIsValuesText(files, formatTime);
    if files != [] {
      assert values[|values| - 1] == ';';
    }
  }

  /** The reply a listed row becomes: the row's fields, and both storage
      keys derived again from the name. */
  function Listed(name: string, row: Row, modifier: Modifier): (r: Reply)
    ensures r.name == name && r.key == modifier(name) && r.metaKey == modifier(MetaModifier(name))
    ensures r.bucket == row.bucket && r.timestamp == row.timestamp && r.size == row.size
  {
    Reply(name, row.bucket, modifier(name), row.size, 0, "", modifier(MetaModifier(name)), "", row.timestamp, None)
  }

  /** The names of a list of replies. */
  function NamesOf(keys: seq<Reply>): (r: seq<string>)
    ensures |r| == |keys| && forall i :: 0 <= i < |keys| ==> r[i] == keys[i].name
  {
    if keys == [] then [] else [keys[0].name] + NamesOf(keys[1..])
  }

  /** `keys` lists every row of `rows` exactly once, as Listed builds it. */
  predicate Listing(keys: seq<Reply>, rows: map<string, Row>, modifier: Modifier) {
    |keys| == |rows|
    && (forall i :: 0 <= i < |keys| ==> keys[i].name in rows && keys[i] == Listed(keys[i].name, rows[keys[i].name], modifier))
    && (forall i, j :: 0 <= i < j < |keys| ==> keys[i].name != keys[j].name)
    && (forall n :: n in rows ==> exists i :: 0 <= i < |keys| && keys[i].name == n)
  }

  /** The replies a row list becomes, in its order. */
  function ListedRows(rows: seq<(string, Row)>, modifier: Modifier): (keys: seq<Reply>)
    ensures |keys| == |rows| && forall i :: 0 <= i < |rows| ==> keys[i] == Listed(rows[i].0, rows[i].1, modifier)
  {
    seq(|rows|, i requires 0 <= i < |rows| => Listed(rows[i].0, rows[i].1, modifier))
  }

  /** Listing the rows of a table, in any order, is a listing of the table. */
  lemma ListedRowsListing(rows: seq<(string, Row)>, m: map<string, Row>, modifier: Modifier)
    requires RowList(rows, m)
    ensures Listing(ListedRows(rows, modifier), m, modifier)
  {
    var keys := ListedRows(rows, modifier);
    forall i | 0 <= i < |keys|
      ensures keys[i].name in m && keys[i] == Listed(keys[i].name, m[keys[i].name], modifier)
    {
      assert keys[i] == Listed(rows[i].0, rows[i].1, modifier);
    }
    forall i, j | 0 <= i < j < |keys|
      ensures keys[i].name != keys[j].name
    {
      assert keys[i].name == rows[i].0 && keys[j].name == rows[j].0;
    }
    forall n | n in m
      ensures exists i :: 0 <= i < |keys| && keys[i].name == n
    {
      var k :| 0 <= k < |rows| && rows[k].0 == n;
      assert keys[k].name == n;
    }
  }

  /** The rows.Next loop of ListIndex: each row becomes its listed reply. */
  method ListRows(rows: seq<(string, Row)>, modifier: Modifier) returns (names: seq<Reply>)
    ensures names == ListedRows(rows, modifier)
  {
    names := [];
    var i := 0;
    while i < |rows|
      invariant 0 <= i <= |rows| && names == ListedRows(rows[..i], modifier)
    {
      names := names + [Listed(rows[i].0, rows[i].1, modifier)];
      i := i + 1;
    }
    assert rows[..i] == rows;
  }

  /** index.Indexer: one user's view of the index. */
  class Indexer {
    const username: string
    const db: Database
    const metaIndex: string
    const modifier: Modifier
    const formatTime: Time -> string

    /** The Indexer literal of NewIndexer. */
    constructor (username0: string, db0: Database, shake: Shake256, formatTime0: Time -> string)
      ensures username == username0 && db == db0 && formatTime == formatTime0
      ensures metaIndex == IndexName(username0, MetaTag)
      ensures modifier == UsernameModifier(shake, username0)
    {
      username := username0;
      db := db0;
      metaIndex := IndexName(username0, MetaTag);
      modifier := UsernameModifier(shake, username0);
      formatTime := formatTime0;
    }

    /** check_and_create_meta, as a function of the tables. */
    function CreateMetaSpec(tables: Tables): Step {
      var o := Run(tables, CreateMetaIfMissing(metaIndex), db.faults(CreateMetaIfMissing(metaIndex)));
      Step(o.tables, if o.err.Some? then Some(MetaCreateFailed(metaIndex, o.err.value)) else None)
    }

    /** check_and_create_meta */
    method CheckAndCreateMeta() returns (err: Option<IndexError>)
      modifies db
      ensures Step(db.tables, err) == CreateMetaSpec(old(db.tables))
    {
      var e := db.Exec(CreateMetaIfMissing(metaIndex));
      if e.Some? {
        return Some(MetaCreateFailed(metaIndex, e.value));
      }
      return None;
    }

    /** check_and_create_table, as a function of the tables. */
    function Provision(tables: Tables, tag: string): Step {
      var iname := IndexName(username, tag);
      if iname == metaIndex then Step(tables, Some(NotAllowed(tag)))
      else if QueryError(tables, ProbeName(iname), db.faults(ProbeName(iname))).None? then Step(tables, None)
      else
        var c := Run(tables, CreateIndex(iname), db.faults(CreateIndex(iname)));
        if c.err.Some? && c.err.value != MySqlError(ErTableExists) then Step(tables, Some(CreateFailed(iname, c.err.value)))
        else
          var ins := Run(c.tables, InsertTag(metaIndex, tag), db.faults(InsertTag(metaIndex, tag)));
          if ins.err.Some? then Step(ins.tables, Some(RegisterFailed(tag, metaIndex, ins.err.value)))
          else Step(ins.tables, None)
    }

    /** check_and_create_table: probe the tag's table; when the probe fails,
        create it (tolerating "already exists") and register the tag. */
    method CheckAndCreateTable(tag: string) returns (err: Option<IndexError>)
      modifies db
      ensures Step(db.tables, err) == Provision(old(db.tables), tag)
    {
      var iname := IndexName(username, tag);
      if iname == metaIndex {
        return Some(NotAllowed(tag));
      }
      var probe := db.Query(ProbeName(iname));
      if probe.Some? {
        var cerr := db.Exec(CreateIndex(iname));
        if cerr.Some? {
          if !cerr.value.MySqlError? {
            return Some(CreateFailed(iname, cerr.value));
          }
          if cerr.value.number != ErTableExists {
            return Some(CreateFailed(iname, cerr.value));
          }
        }
        var ierr := db.Exec(InsertTag(metaIndex, tag));
        if ierr.Some? {
          return Some(RegisterFailed(tag, metaIndex, ierr.value));
        }
      }
      return None;
    }

    /** IndexFiles, as a function of the tables. */
    function IndexFilesSpec(tables: Tables, tag: string, files: seq<Reply>): Step {
      var p := Provision(tables, tag);
      if p.err.Some? then p
      else
        var iname := IndexName(username, tag);
        var values := ValuesText(files, formatTime);
        var r := Run(p.tables, ReplaceRows(iname, values, files), db.faults(ReplaceRows(iname, values, files)));
        if r.err.Some? then Step(r.tables, Some(InsertFailed(iname, values, r.err.value)))
        else Step(r.tables, None)
    }

    /** IndexFiles: provision the tag's table, then one REPLACE of the
        whole batch. */
    method IndexFiles(tag: string, files: seq<Reply>) returns (err: Option<IndexError>)
      modifies db
      ensures Step(db.tables, err) == IndexFilesSpec(old(db.tables), tag, files)
    {
      err := CheckAndCreateTable(tag);
      if err.Some? {
        return;
      }
      var iname := IndexName(username, tag);
      var values := Serialize(files, formatTime);
      var rerr := db.Exec(ReplaceRows(iname, values, files));
      if rerr.Some? {
        return Some(InsertFailed(iname, values, rerr.value));
      }
      return None;
    }

    /** Index over the tags in the order `order`: IndexFiles for each,
        stopping at the first error. */
    function RunIndex(tables: Tables, order: seq<string>, groups: Groups): Step
      requires forall t :: t in order ==> t in groups
      decreases |order|
    {
      if order == [] then Step(tables, None)
      else
        var s := IndexFilesSpec(tables, order[0], groups[order[0]]);
        if s.err.Some? then s else RunIndex(s.tables, order[1..], groups)
    }

    /** Index: regroup the request by tag and index every tag, in the
        unspecified order Go's map iteration yields (`order`). */
    method Index(req: IndexRequest) returns (err: Option<IndexError>, ghost order: seq<string>)
      modifies db
      ensures Enumerates(order, Grouped(req.files).Keys)
      ensures Step(db.tables, err) == RunIndex(old(db.tables), order, Grouped(req.files))
    {
      var groups := ReformatIndexRequest(req);
      EnumerationExists(groups.Keys);
      var tags :| Enumerates(tags, groups.Keys);
      order := tags;
      var i := 0;
      while i < |tags|
        invariant 0 <= i <= |tags|
        invariant RunIndex(old(db.tables), tags, groups) == RunIndex(db.tables, tags[i..], groups)
      {
        var tag := tags[i];
        assert tags[i..][1..] == tags[i + 1..];
        err := IndexFiles(tag, groups[tag]);
        if err.Some? {
          return;
        }
        i := i + 1;
      }
      err := None;
    }

    /** The error reading a tag's table reports, if any: the SELECT's, then
        the row scan's. */
    function ReadError(tables: Tables, iname: string): Option<IndexError> {
      var q := QueryError(tables, SelectRows(iname), db.faults(SelectRows(iname)));
      if q.Some? then Some(ReadFailed(iname, q.value))
      else if db.faults(ScanRows(iname)).Some? then Some(ScanFailed(db.faults(ScanRows(iname)).value))
      else None
    }

    /** The reply for one tag lists its table's rows. */
    ghost predicate TagListed(tables: Tables, lr: LReply) {
      var iname := IndexName(username, lr.tag);
      iname in tables && tables[iname].IndexTable? && Listing(lr.keys, tables[iname].rows, modifier)
    }

    /** `replies` answers `tags` one for one, in order. */
    ghost predicate ListedAll(tables: Tables, tags: seq<string>, replies: seq<LReply>) {
      |replies| == |tags|
      && forall i :: 0 <= i < |tags| ==> replies[i].tag == tags[i] && TagListed(tables, replies[i])
    }

    lemma ListedAllSnoc(tables: Tables, tags: seq<string>, i: nat, replies: seq<LReply>, lr: LReply)
      requires i < |tags| && lr.tag == tags[i]
      requires ListedAll(tables, tags[..i], replies) && TagListed(tables, lr)
      ensures ListedAll(tables, tags[..i + 1], replies + [lr])
    {
      forall j | 0 <= j < i + 1
        ensures (replies + [lr])[j].tag == tags[..i + 1][j] && TagListed(tables, (replies + [lr])[j])
      {
        if j < i {
          assert (replies + [lr])[j] == replies[j] && tags[..i + 1][j] == tags[..i][j];
        }
      }
    }

    /** ListIndex */
    method ListIndex(tag: string) returns (r: Result<seq<Reply>, IndexError>)
      ensures var iname := IndexName(username, tag);
        r.Err? <==> ReadError(db.tables, iname).Some?
      ensures var iname := IndexName(username, tag);
        r.Err? ==> r.error == ReadError(db.tables, iname).value
      ensures r.Ok? ==> TagListed(db.tables, LReply(tag, r.value))
    {
      var iname := IndexName(username, tag);
      var qerr := db.Query(SelectRows(iname));
      if qerr.Some? {
        return Err(ReadFailed(iname, qerr.value));
      }
      var rows := db.Rows(iname);
      var names := ListRows(rows, modifier);
      var scan := db.faults(ScanRows(iname));
      if scan.Some? {
        return Err(ScanFailed(scan.value));
      }
      ListedRowsListing(rows, db.tables[iname].rows, modifier);
      return Ok(names);
    }

    /** ListMeta: the registered tags, as replies carrying only a name,
        under the single tag "meta". */
    method ListMeta() returns (r: Result<seq<LReply>, IndexError>)
      ensures var q := QueryError(db.tables, SelectTags(metaIndex), db.faults(SelectTags(metaIndex)));
        q.Some? ==> r == Err(MetaReadFailed(metaIndex, q.value))
      ensures var q := QueryError(db.tables, SelectTags(metaIndex), db.faults(SelectTags(metaIndex)));
        q.None? && db.faults(ScanTags(metaIndex)).Some? ==> r == Err(ScanFailed(db.faults(ScanTags(metaIndex)).value))
      ensures r.Ok? ==>
        metaIndex in db.tables && db.tables[metaIndex].MetaTable?
        && |r.value| == 1 && r.value[0].tag == MetaTag
        && Enumerates(NamesOf(r.value[0].keys), db.tables[metaIndex].tags)
        && (forall i :: 0 <= i < |r.value[0].keys| ==> r.value[0].keys[i] == EmptyReply.(name := r.value[0].keys[i].name))
      ensures r.Err? ==> QueryError(db.tables, SelectTags(metaIndex), db.faults(SelectTags(metaIndex))).Some? || db.faults(ScanTags(metaIndex)).Some?
    {
      var qerr := db.Query(SelectTags(metaIndex));
      if qerr.Some? {
        return Err(MetaReadFailed(metaIndex, qerr.value));
      }
      var tags := db.Tags(metaIndex);
      var names: seq<Reply> := [];
      var i := 0;
      while i < |tags|
        invariant 0 <= i <= |tags| && |names| == i
        invariant forall k :: 0 <= k < i ==> names[k] == EmptyReply.(name := tags[k])
      {
        names := names + [EmptyReply.(name := tags[i])];
        i := i + 1;
      }
      var scan := db.faults(ScanTags(metaIndex));
      if scan.Some? {
        return Err(ScanFailed(scan.value));
      }
      assert NamesOf(names) == tags;
      return Ok([LReply(MetaTag, names)]);
    }

    /** Every tag of `tags` can be read. */
    predicate Readable(tables: Tables, tags: seq<string>) {
      forall j :: 0 <= j < |tags| ==> ReadError(tables, IndexName(username, tags[j])).None?
    }

    lemma ReadableSnoc(tables: Tables, tags: seq<string>, i: nat)
      requires i < |tags| && Readable(tables, tags[..i])
      requires ReadError(tables, IndexName(username, tags[i])).None?
      ensures Readable(tables, tags[..i + 1])
    {
      assert forall j :: 0 <= j < i ==> tags[..i + 1][j] == tags[..i][j];
    }

    /** List: one listing per requested tag, in request order; the first
        tag that cannot be read fails the whole request. */
    method List(tags: seq<string>) returns (r: Result<seq<LReply>, IndexError>)
      ensures r.Ok? <==> Readable(db.tables, tags)
      ensures r.Ok? ==> ListedAll(db.tables, tags, r.value)
      ensures r.Err? ==> exists k :: (0 <= k < |tags| && Readable(db.tables, tags[..k])
        && ReadError(db.tables, IndexName(username, tags[k])) == Some(r.error))
    {
      ghost var tables := db.tables;
      var replies: seq<LReply> := [];
      var i := 0;
      while i < |tags|
        invariant 0 <= i <= |tags| && |replies| == i
        invariant db.tables == tables
        invariant Readable(tables, tags[..i])
        invariant ListedAll(tables, tags[..i], replies)
      {
        var keys := ListIndex(tags[i]);
        if keys.Err? {
          r := Err(keys.error);
          assert ReadError(tables, IndexName(username, tags[i])) == Some(r.error);
          assert !Readable(tables, tags);
          return;
        }
        var lr := LReply(tags[i], keys.value);
        ListedAllSnoc(tables, tags, i, replies, lr);
        ReadableSnoc(tables, tags, i);
        replies := replies + [lr];
        i := i + 1;
      }
      assert tags[..i] == tags;
      return Ok(replies);
    }

    // Properties of provisioning.

    /** The reserved tag is refused, and only it; refusing changes nothing. */
    lemma ProvisionReserved(tables: Tables, tag: string)
      requires metaIndex == IndexName(username, MetaTag)
      ensures Provision(tables, tag).err == Some(NotAllowed(tag)) <==> tag == MetaTag
      ensures tag == MetaTag ==> Provision(tables, tag).tables == tables
    {
      IndexNameInjective(username, tag, MetaTag);
    }

    /** A table the probe can read is used as it is. */
    lemma ProvisionProbeHit(tables: Tables, tag: string)
      requires IndexName(username, tag) != metaIndex
      requires QueryError(tables, ProbeName(IndexName(username, tag)), db.faults(ProbeName(IndexName(username, tag)))).None?
      ensures Provision(tables, tag) == Step(tables, None)
    {
    }

    /** A new tag, with no faults: the table is created empty and the tag is
        registered in the meta table, and nothing else changes. */
    lemma ProvisionFresh(tables: Tables, tag: string)
      requires IndexName(username, tag) != metaIndex && IndexName(username, tag) !in tables
      requires metaIndex in tables && tables[metaIndex].MetaTable? && tag !in tables[metaIndex].tags
      requires db.faults(ProbeName(IndexName(username, tag))).None?
      requires db.faults(CreateIndex(IndexName(username, tag))).None?
      requires db.faults(InsertTag(metaIndex, tag)).None?
      ensures Provision(tables, tag) == Step(
        tables[IndexName(username, tag) := IndexTable(map[])][metaIndex := MetaTable(tables[metaIndex].tags + {tag})],
        None)
    {
    }

    /** "Table already exists" from CREATE is not an error: registration
        goes ahead on the unchanged tables. */
    lemma ProvisionTableExists(tables: Tables, tag: string)
      requires IndexName(username, tag) != metaIndex
      requires QueryError(tables, ProbeName(IndexName(username, tag)), db.faults(ProbeName(IndexName(username, tag)))).Some?
      requires Run(tables, CreateIndex(IndexName(username, tag)), db.faults(CreateIndex(IndexName(username, tag)))).err == Some(MySqlError(ErTableExists))
      ensures var ins := Run(tables, InsertTag(metaIndex, tag), db.faults(InsertTag(metaIndex, tag)));
        Provision(tables, tag) == Step(ins.tables, if ins.err.Some? then Some(RegisterFailed(tag, metaIndex, ins.err.value)) else None)
    {
    }

    /** Any other CREATE failure is returned and changes nothing. */
    lemma ProvisionCreateFails(tables: Tables, tag: string)
      requires IndexName(username, tag) != metaIndex
      requires QueryError(tables, ProbeName(IndexName(username, tag)), db.faults(ProbeName(IndexName(username, tag)))).Some?
      requires var c := Run(tables, CreateIndex(IndexName(username, tag)), db.faults(CreateIndex(IndexName(username, tag))));
        c.err.Some? && c.err.value != MySqlError(ErTableExists)
      ensures var c := Run(tables, CreateIndex(IndexName(username, tag)), db.faults(CreateIndex(IndexName(username, tag))));
        Provision(tables, tag) == Step(tables, Some(CreateFailed(IndexName(username, tag), c.err.value)))
    {
    }

    /** Every table of this user other than the meta table is registered. */
    ghost predicate Registry(tables: Tables) {
      metaIndex in tables && tables[metaIndex].MetaTable?
      && forall t :: IndexName(username, t) in tables && IndexName(username, t) != metaIndex ==> t in tables[metaIndex].tags
    }

    /** Provisioning keeps every table registered, as long as the INSERT
        into the meta table is not hit by a fault. */
    lemma ProvisionKeepsRegistry(tables: Tables, tag: string)
      requires Registry(tables)
      requires db.faults(InsertTag(metaIndex, tag)).None?
      ensures Registry(Provision(tables, tag).tables)
    {
      var iname := IndexName(username, tag);
      var p := Provision(tables, tag);
      if iname != metaIndex && QueryError(tables, ProbeName(iname), db.faults(ProbeName(iname))).Some? {
        var c := Run(tables, CreateIndex(iname), db.faults(CreateIndex(iname)));
        if !(c.err.Some? && c.err.value != MySqlError(ErTableExists)) {
          assert c.tables.Keys <= tables.Keys + {iname};
          forall t | IndexName(username, t) in p.tables && IndexName(username, t) != metaIndex
            ensures t in p.tables[metaIndex].tags
          {
            IndexNameInjective(username, t, tag);
          }
        }
      }
    }

    /** The INSERT is not idempotent: a registered tag whose table exists,
        met by a probe that fails transiently, makes provisioning fail on
        the duplicate tag although the table is usable. */
    lemma ProbeFaultOnRegisteredTag(tables: Tables, tag: string)
      requires IndexName(username, tag) != metaIndex
      requires IndexName(username, tag) in tables
      requires metaIndex in tables && tables[metaIndex].MetaTable? && tag in tables[metaIndex].tags
      requires db.faults(ProbeName(IndexName(username, tag))).Some?
      requires db.faults(CreateIndex(IndexName(username, tag))).None?
      requires db.faults(InsertTag(metaIndex, tag)).None?
      ensures Provision(tables, tag) == Step(tables, Some(RegisterFailed(tag, metaIndex, MySqlError(ErDupEntry))))
    {
    }

    /** A fault on the INSERT after a successful CREATE leaves a table that
        the meta table does not list. */
    lemma InsertFaultLeavesUnregistered(tables: Tables, tag: string)
      requires IndexName(username, tag) != metaIndex && IndexName(username, tag) !in tables
      requires metaIndex in tables && tables[metaIndex].MetaTable? && tag !in tables[metaIndex].tags
      requires db.faults(CreateIndex(IndexName(username, tag))).None?
      requires db.faults(InsertTag(metaIndex, tag)).Some?
      ensures Provision(tables, tag).err.Some?
      ensures IndexName(username, tag) in Provision(tables, tag).tables
      ensures !Registry(Provision(tables, tag).tables)
    {
      var p := Provision(tables, tag);
      assert p.tables == tables[IndexName(username, tag) := IndexTable(map[])];
      assert IndexName(username, tag) in p.tables && IndexName(username, tag) != metaIndex && tag !in p.tables[metaIndex].tags;
    }

    // Properties of IndexFiles and Index.

    /** The rows an existing index table already holds; none otherwise. */
    function PriorRows(tables: Tables, iname: string): map<string, Row> {
      if iname in tables && tables[iname].IndexTable? then tables[iname].rows else map[]
    }

    /** Provisioning touches only the tag's table and the meta table. */
    lemma ProvisionFrame(tables: Tables, tag: string, x: string)
      requires x != IndexName(username, tag) && x != metaIndex
      ensures var p := Provision(tables, tag);
        (x in p.tables <==> x in tables) && (x in tables ==> p.tables[x] == tables[x])
    {
    }

    /** IndexFiles touches only the tag's table and the meta table. */
    lemma IndexFilesFrame(tables: Tables, tag: string, files: seq<Reply>, x: string)
      requires x != IndexName(username, tag) && x != metaIndex
      ensures var s := IndexFilesSpec(tables, tag, files);
        (x in s.tables <==> x in tables) && (x in tables ==> s.tables[x] == tables[x])
    {
      ProvisionFrame(tables, tag, x);
      var p := Provision(tables, tag);
      if p.err.None? {
        var iname := IndexName(username, tag);
        var values := ValuesText(files, formatTime);
        var r := Run(p.tables, ReplaceRows(iname, values, files), db.faults(ReplaceRows(iname, values, files)));
        assert (x in r.tables <==> x in p.tables) && (x in p.tables ==> r.tables[x] == p.tables[x]);
      }
    }

    /** After a successful IndexFiles the tag's table holds the previous rows
        with the batch replaced in by name. */
    lemma IndexFilesWritten(tables: Tables, tag: string, files: seq<Reply>)
      requires IndexFilesSpec(tables, tag, files).err.None?
      ensures var s := IndexFilesSpec(tables, tag, files);
        var iname := IndexName(username, tag);
        iname in s.tables && s.tables[iname] == IndexTable(Upsert(PriorRows(tables, iname), files))
    {
      var iname := IndexName(username, tag);
      var p := Provision(tables, tag);
      assert iname in p.tables && p.tables[iname].IndexTable?;
      assert p.tables[iname].rows == PriorRows(tables, iname);
    }

    /** The tag's table holds, for every file of the batch, the row of the
        last file with that name. */
    predicate Indexed(tables: Tables, tag: string, files: seq<Reply>) {
      var iname := IndexName(username, tag);
      iname in tables && tables[iname].IndexTable?
      && forall f :: f in files ==>
           f.name in tables[iname].rows && tables[iname].rows[f.name] == RowOf(LastWith(files, f.name).value)
    }

    lemma IndexFilesIndexed(tables: Tables, tag: string, files: seq<Reply>)
      requires IndexFilesSpec(tables, tag, files).err.None?
      ensures Indexed(IndexFilesSpec(tables, tag, files).tables, tag, files)
    {
      IndexFilesWritten(tables, tag, files);
      var iname := IndexName(username, tag);
      forall f | f in files
        ensures LastWith(files, f.name).Some?
        ensures f.name in Upsert(PriorRows(tables, iname), files)
        ensures Upsert(PriorRows(tables, iname), files)[f.name] == RowOf(LastWith(files, f.name).value)
      {
        UpsertLastWins(PriorRows(tables, iname), files, f.name);
      }
    }

    /** Index touches only the tables of the tags it processes and the meta
        table. */
    lemma {:induction false} RunIndexFrame(tables: Tables, order: seq<string>, groups: Groups, x: string)
      requires forall t :: t in order ==> t in groups
      requires x != metaIndex && forall t :: t in order ==> IndexName(username, t) != x
      ensures var s := RunIndex(tables, order, groups);
        (x in s.tables <==> x in tables) && (x in tables ==> s.tables[x] == tables[x])
      decreases |order|
    {
      if order != [] {
        var s := IndexFilesSpec(tables, order[0], groups[order[0]]);
        IndexFilesFrame(tables, order[0], groups[order[0]], x);
        if s.err.None? {
          RunIndexFrame(s.tables, order[1..], groups, x);
        }
      }
    }

    /** Index fails fast: a failing run ends in the failing IndexFiles of
        some tag k, all earlier tags having succeeded (and staying written)
        and no later tag attempted. */
    lemma {:induction false} RunIndexFailFast(tables: Tables, order: seq<string>, groups: Groups)
      requires forall t :: t in order ==> t in groups
      requires RunIndex(tables, order, groups).err.Some?
      ensures exists k :: (0 <= k < |order|
        && RunIndex(tables, order[..k], groups).err.None?
        && IndexFilesSpec(RunIndex(tables, order[..k], groups).tables, order[k], groups[order[k]]) == RunIndex(tables, order, groups))
      decreases |order|
    {
      var s := IndexFilesSpec(tables, order[0], groups[order[0]]);
      if s.err.Some? {
        assert order[..0] == [];
      } else {
        RunIndexFailFast(s.tables, order[1..], groups);
        var k :| 0 <= k < |order[1..]|
          && RunIndex(s.tables, order[1..][..k], groups).err.None?
          && IndexFilesSpec(RunIndex(s.tables, order[1..][..k], groups).tables, order[1..][k], groups[order[1..][k]]) == RunIndex(s.tables, order[1..], groups);
        RunIndexShift(tables, order, groups, k);
        assert order[k + 1] == order[1..][k];
      }
    }

    /** A run over a non-empty order whose first tag succeeds is the run
        over the rest from the tables that tag left, and so is each of its
        prefixes. */
    lemma RunIndexShift(tables: Tables, order: seq<string>, groups: Groups, k: nat)
      requires forall t :: t in order ==> t in groups
      requires k < |order| - 1
      requires IndexFilesSpec(tables, order[0], groups[order[0]]).err.None?
      ensures var s := IndexFilesSpec(tables, order[0], groups[order[0]]);
        RunIndex(tables, order[..k + 1], groups) == RunIndex(s.tables, order[1..][..k], groups)
        && RunIndex(tables, order, groups) == RunIndex(s.tables, order[1..], groups)
    {
      assert order[..k + 1][0] == order[0] && order[..k + 1][1..] == order[1..][..k];
    }

    /** On success every processed tag holds its batch. */
    lemma {:induction false} RunIndexSuccess(tables: Tables, order: seq<string>, groups: Groups)
      requires metaIndex == IndexName(username, MetaTag)
      requires forall t :: t in order ==> t in groups
      requires forall i, j :: 0 <= i < j < |order| ==> order[i] != order[j]
      requires RunIndex(tables, order, groups).err.None?
      ensures forall i :: 0 <= i < |order| ==> Indexed(RunIndex(tables, order, groups).tables, order[i], groups[order[i]])
      decreases |order|
    {
      if order != [] {
        var t := order[0];
        var s := IndexFilesSpec(tables, t, groups[t]);
        var final := RunIndex(tables, order, groups).tables;
        IndexFilesIndexed(tables, t, groups[t]);
        RunIndexSuccess(s.tables, order[1..], groups);
        var x := IndexName(username, t);
        ProvisionReserved(tables, t);
        forall u | u in order[1..]
          ensures IndexName(username, u) != x
        {
          var j :| 0 <= j < |order[1..]| && order[1..][j] == u;
          assert order[j + 1] == u;
          IndexNameInjective(username, u, t);
        }
        RunIndexFrame(s.tables, order[1..], groups, x);
        forall i | 0 <= i < |order|
          ensures Indexed(final, order[i], groups[order[i]])
        {
          if i > 0 {
            assert order[i] == order[1..][i - 1];
          }
        }
      }
    }

    /** A successful Index stores every tag the request mentions, with the
        files that list it: under each file's name, the row of the last such
        file with that name. */
    lemma IndexRequestStored(tables: Tables, req: IndexRequest, order: seq<string>, tag: string)
      requires metaIndex == IndexName(username, MetaTag)
      requires Enumerates(order, Grouped(req.files).Keys)
      requires RunIndex(tables, order, Grouped(req.files)).err.None?
      requires Mentioned(req.files, tag)
      ensures Indexed(RunIndex(tables, order, Grouped(req.files)).tables, tag, FilesFor(req.files, tag))
    {
      var groups := Grouped(req.files);
      GroupedContents(req.files, tag);
      RunIndexSuccess(tables, order, groups);
      var i :| 0 <= i < |order| && order[i] == tag;
    }
  }

  /** NewIndexer: build the indexer and make sure its meta table exists. */
  method NewIndexer(username: string, db: Database, shake: Shake256, formatTime: Time -> string)
    returns (r: Result<Indexer, IndexError>)
    modifies db
    ensures r.Ok? ==> fresh(r.value) && r.value.db == db && r.value.username == username
    ensures r.Ok? ==> r.value.metaIndex == username + ":meta" && r.value.modifier == UsernameModifier(shake, username)
    ensures r.Ok? ==> r.value.metaIndex in db.tables
    ensures r.Ok? <==> Run(old(db.tables), CreateMetaIfMissing(username + ":meta"), db.faults(CreateMetaIfMissing(username + ":meta"))).err.None?
    ensures db.tables == Run(old(db.tables), CreateMetaIfMissing(username + ":meta"), db.faults(CreateMetaIfMissing(username + ":meta"))).tables
  {
    var idx := new Indexer(username, db, shake, formatTime);
    assert idx.metaIndex == username + ":meta";
    var err := idx.CheckAndCreateMeta();
    if err.Some? {
      return Err(err.value);
    }
    return Ok(idx);
  }
}
