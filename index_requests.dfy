/** Index requests and their regrouping by tag (services/index/index.go,
    ReformatIndexRequest): a request lists files, each with the tags it
    should be indexed under; the index service turns it into one batch of
    files per tag before touching any table. */
module IndexRequests {
  import opened Basics
  import opened Records

  /** index.Request: one file and its tags. */
  datatype Request = Request(file: Reply, tags: seq<string>)

  /** index.IndexRequest */
  datatype IndexRequest = IndexRequest(files: seq<Request>)

  /** index.IndexFiles: tag to the batch of files to store under it. */
  type Groups = map<string, seq<Reply>>

  /** Reading a tag's batch; an absent tag reads as the nil slice. */
  function Get(m: Groups, tag: string): seq<Reply> {
    if tag in m then m[tag] else []
  }

  /** Appending one file under each of `tags`, in order. */
  function AddTags(m: Groups, file: Reply, tags: seq<string>): Groups
    decreases |tags|
  {
    if tags == [] then m
    else
      var before := AddTags(m, file, tags[..|tags| - 1]);
      var tag := tags[|tags| - 1];
      before[tag := Get(before, tag) + [file]]
  }

  /** The grouping the nested loop builds, request by request. */
  function Grouped(reqs: seq<Request>): Groups
    decreases |reqs|
  {
    if reqs == [] then map[]
    else AddTags(Grouped(reqs[..|reqs| - 1]), reqs[|reqs| - 1].file, reqs[|reqs| - 1].tags)
  }

  /** ReformatIndexRequest */
  method ReformatIndexRequest(req: IndexRequest) returns (groups: Groups)
    ensures groups == Grouped(req.files)
  {
    groups := map[];
    var i := 0;
    while i < |req.files|
      invariant 0 <= i <= |req.files|
      invariant groups == Grouped(req.files[..i])
    {
      var r := req.files[i];
      var j := 0;
      while j < |r.tags|
        invariant 0 <= j <= |r.tags|
        invariant groups == AddTags(Grouped(req.files[..i]), r.file, r.tags[..j])
      {
        var tag := r.tags[j];
        var batch := if tag in groups then groups[tag] else [];
        groups := groups[tag := batch + [r.file]];
        assert r.tags[..j + 1][..j] == r.tags[..j];
        j := j + 1;
      }
      assert r.tags[..j] == r.tags;
      assert req.files[..i + 1][..i] == req.files[..i];
      i := i + 1;
    }
    assert req.files[..i] == req.files;
  }

  // An independent description of the grouping: per tag, the files whose
  // requests list it, once per listing, in request order.

  /** How many times `tag` occurs in `tags`. */
  function Count(tags: seq<string>, tag: string): nat
    decreases |tags|
  {
    if tags == [] then 0
    else Count(tags[..|tags| - 1], tag) + (if tags[|tags| - 1] == tag then 1 else 0)
  }

  function Repeat(file: Reply, n: nat): (r: seq<Reply>)
    ensures |r| == n && forall i :: 0 <= i < n ==> r[i] == file
  {
    if n == 0 then [] else Repeat(file, n - 1) + [file]
  }

  /** The files of the requests that list `tag`, once per listing. */
  function FilesFor(reqs: seq<Request>, tag: string): seq<Reply>
    decreases |reqs|
  {
    if reqs == [] then []
    else FilesFor(reqs[..|reqs| - 1], tag) + Repeat(reqs[|reqs| - 1].file, Count(reqs[|reqs| - 1].tags, tag))
  }

  /** Some request lists `tag`. */
  predicate Mentioned(reqs: seq<Request>, tag: string) {
    exists i :: 0 <= i < |reqs| && tag in reqs[i].tags
  }

  lemma {:induction false} AddTagsGet(m: Groups, file: Reply, tags: seq<string>, tag: string)
    ensures Get(AddTags(m, file, tags), tag) == Get(m, tag) + Repeat(file, Count(tags, tag))
    decreases |tags|
  {
    if tags != [] {
      var n := |tags| - 1;
      var init, last := tags[..n], tags[n];
      var before := AddTags(m, file, init);
      AddTagsGet(m, file, init, tag);
      assert Get(AddTags(m, file, tags), tag) == if last == tag then Get(before, tag) + [file] else Get(before, tag);
      if last == tag {
        assert Repeat(file, Count(init, tag) + 1) == Repeat(file, Count(init, tag)) + [file];
      }
    }
  }

  lemma {:induction false} AddTagsKeys(m: Groups, file: Reply, tags: seq<string>, tag: string)
    ensures tag in AddTags(m, file, tags) <==> tag in m || tag in tags
    decreases |tags|
  {
    if tags != [] {
      var n := |tags| - 1;
      AddTagsKeys(m, file, tags[..n], tag);
      assert tags == tags[..n] + [tags[n]];
    }
  }

  /** ReformatIndexRequest maps every tag to exactly the files that list it,
      in request order and once per listing; tags no request lists are
      absent. */
  lemma {:induction false} GroupedContents(reqs: seq<Request>, tag: string)
    ensures Get(Grouped(reqs), tag) == FilesFor(reqs, tag)
    ensures tag in Grouped(reqs) <==> Mentioned(reqs, tag)
    decreases |reqs|
  {
    if reqs != [] {
      var init, last := reqs[..|reqs| - 1], reqs[|reqs| - 1];
      GroupedContents(init, tag);
      AddTagsGet(Grouped(init), last.file, last.tags, tag);
      AddTagsKeys(Grouped(init), last.file, last.tags, tag);
      if Mentioned(reqs, tag) && !Mentioned(init, tag) {
        var i :| 0 <= i < |reqs| && tag in reqs[i].tags;
      }
      if Mentioned(init, tag) {
        var i :| 0 <= i < |init| && tag in init[i].tags;
        assert reqs[i] == init[i];
      }
    }
  }

  /** Total number of entries over all batches. */
  ghost function Entries(m: Groups): nat
    decreases m.Keys
  {
    if m == map[] then 0
    else
      var k :| k in m;
      |m[k]| + Entries(m - {k})
  }

  lemma {:induction false} EntriesRemove(m: Groups, k: string)
    requires k in m
    ensures Entries(m) == |m[k]| + Entries(m - {k})
    decreases m.Keys
  {
    var j :| j in m && Entries(m) == |m[j]| + Entries(m - {j});
    if j != k {
      var mj, mk := m - {j}, m - {k};
      assert mj.Keys < m.Keys && mk.Keys < m.Keys;
      assert k in mj && j in mk && mj[k] == m[k] && mk[j] == m[j];
      EntriesRemove(mj, k);
      EntriesRemove(mk, j);
      assert mj - {k} == mk - {j};
    }
  }

  /** Appending one file to one batch adds one entry. */
  lemma EntriesAppend(m: Groups, tag: string, file: Reply)
    ensures Entries(m[tag := Get(m, tag) + [file]]) == Entries(m) + 1
  {
    var m' := m[tag := Get(m, tag) + [file]];
    EntriesRemove(m', tag);
    assert m' - {tag} == m - {tag};
    if tag in m {
      EntriesRemove(m, tag);
    } else {
      assert m - {tag} == m;
    }
  }

  lemma {:induction false} AddTagsEntries(m: Groups, file: Reply, tags: seq<string>)
    ensures Entries(AddTags(m, file, tags)) == Entries(m) + |tags|
    decreases |tags|
  {
    if tags != [] {
      var init := tags[..|tags| - 1];
      AddTagsEntries(m, file, init);
      EntriesAppend(AddTags(m, file, init), tags[|tags| - 1], file);
    }
  }

  /** Sum of the lengths of all tag lists of a request. */
  function TagTotal(reqs: seq<Request>): nat
    decreases |reqs|
  {
    if reqs == [] then 0 else TagTotal(reqs[..|reqs| - 1]) + |reqs[|reqs| - 1].tags|
  }

  /** The grouping has as many entries in all as there are (file, tag)
      listings in the request. */
  lemma {:induction false} GroupedEntries(reqs: seq<Request>)
    ensures Entries(Grouped(reqs)) == TagTotal(reqs)
    decreases |reqs|
  {
    if reqs == [] {
      assert |Grouped(reqs)| == 0;
    } else {
      var init, last := reqs[..|reqs| - 1], reqs[|reqs| - 1];
      GroupedEntries(init);
      AddTagsEntries(Grouped(init), last.file, last.tags);
    }
  }
}
