/** What the loops of the services compute: batches of writes, deletions and inserts. */
module Batches {
  import opened Images
  import opened Shares
  import opened Machine

  /* ---------- writes ---------- */

  /** The blob map after writing the members' contents in order. */
  function PutAll(blobs: map<string, Bytes>, ms: seq<Member>): map<string, Bytes> {
    if ms == [] then blobs
    else
      var last := ms[|ms| - 1];
      PutAll(blobs, ms[..|ms| - 1])[last.key := last.input.content]
  }

  /** The blob map after deleting keys[i] for every i whose call succeeds. */
  function DropAll(blobs: map<string, Bytes>, keys: seq<string>, ok: seq<bool>): map<string, Bytes>
    requires |keys| <= |ok|
  {
    if keys == [] then blobs
    else
      var n := |keys| - 1;
      var rest := DropAll(blobs, keys[..n], ok);
      if ok[n] then rest - {keys[n]} else rest
  }

  lemma {:induction false} PutAllHolds(blobs: map<string, Bytes>, ms: seq<Member>, k: string)
    ensures k in PutAll(blobs, ms) <==> k in blobs || k in KeysOf(ms)
    ensures k !in KeysOf(ms) && k in blobs ==> PutAll(blobs, ms)[k] == blobs[k]
    ensures forall i :: 0 <= i < |ms| && ms[i].key == k && (forall j :: i < j < |ms| ==> ms[j].key != k) ==>
              k in PutAll(blobs, ms) && PutAll(blobs, ms)[k] == ms[i].input.content
  {
    if ms != [] {
      var n := |ms| - 1;
      PutAllHolds(blobs, ms[..n], k);
      assert KeysOf(ms) == KeysOf(ms[..n]) + [ms[n].key];
    }
  }

  lemma {:induction false} DropAllHolds(blobs: map<string, Bytes>, keys: seq<string>, ok: seq<bool>, k: string)
    requires |keys| <= |ok|
    ensures k in DropAll(blobs, keys, ok) <==> k in blobs && forall i :: 0 <= i < |keys| && keys[i] == k ==> !ok[i]
    ensures k in DropAll(blobs, keys, ok) ==> DropAll(blobs, keys, ok)[k] == blobs[k]
  {
    if keys != [] {
      var n := |keys| - 1;
      DropAllHolds(blobs, keys[..n], ok, k);
      assert forall i :: 0 <= i < n ==> keys[..n][i] == keys[i];
    }
  }

  /** A rollback whose deletions all succeed restores the blob map exactly. */
  lemma RollbackRestores(blobs: map<string, Bytes>, ms: seq<Member>, ok: seq<bool>)
    requires |ms| <= |ok| && (forall i :: 0 <= i < |ms| ==> ok[i]) && forall i :: 0 <= i < |ms| ==> ms[i].key !in blobs
    ensures DropAll(PutAll(blobs, ms), KeysOf(ms), ok) == blobs
  {
    var after := DropAll(PutAll(blobs, ms), KeysOf(ms), ok);
    forall k ensures k in after <==> k in blobs {
      PutAllHolds(blobs, ms, k);
      DropAllHolds(PutAll(blobs, ms), KeysOf(ms), ok, k);
    }
    forall k | k in blobs ensures after[k] == blobs[k] {
      PutAllHolds(blobs, ms, k);
      DropAllHolds(PutAll(blobs, ms), KeysOf(ms), ok, k);
    }
  }

  /* ---------- inserts ---------- */

  /** bucket_files after one AddFile per member. */
  function AddAll(table: seq<BRow>, nextId: int, b: string, ms: seq<Member>): seq<BRow> {
    if ms == [] then table
    else
      var n := |ms| - 1;
      AddAll(table, nextId, b, ms[..n]) + [BRow(nextId + n, b, AsFile(ms[n]))]
  }

  /** The new rows are read back in request order; other buckets read what they read before. */
  lemma {:induction false} AddAllLists(table: seq<BRow>, nextId: int, b: string, ms: seq<Member>, c: string)
    ensures FilesOf(AddAll(table, nextId, b, ms), c) == FilesOf(table, c) + if c == b then AsFiles(ms) else []
  {
    if ms != [] {
      var n := |ms| - 1;
      AddAllLists(table, nextId, b, ms[..n], c);
      FilesOfAppend(AddAll(table, nextId, b, ms[..n]), BRow(nextId + n, b, AsFile(ms[n])), c);
      assert AsFiles(ms) == AsFiles(ms[..n]) + [AsFile(ms[n])];
    }
  }

  lemma {:induction false} AddAllInOrder(table: seq<BRow>, nextId: int, b: string, ms: seq<Member>)
    requires InIdOrder(table, nextId)
    ensures InIdOrder(AddAll(table, nextId, b, ms), nextId + |ms|)
  {
    if ms != [] { AddAllInOrder(table, nextId, b, ms[..|ms| - 1]); }
  }

  /* ---------- row deletions ---------- */

  /** The tables after deleting refs[i] for every i whose call succeeds. */
  function RowsWithout(rows: map<Ref, Row>, refs: seq<Ref>, ok: seq<bool>): map<Ref, Row>
    requires |refs| <= |ok|
  {
    if refs == [] then rows
    else
      var n := |refs| - 1;
      var rest := RowsWithout(rows, refs[..n], ok);
      if ok[n] then rest - {refs[n]} else rest
  }

  function FilesWithout(table: seq<BRow>, refs: seq<Ref>, ok: seq<bool>): seq<BRow>
    requires |refs| <= |ok|
  {
    if refs == [] then table
    else
      var n := |refs| - 1;
      var rest := FilesWithout(table, refs[..n], ok);
      if ok[n] && refs[n].kind.BucketShare? then DropBucket(rest, refs[n].slug) else rest
  }

  predicate Distinct(refs: seq<Ref>) {
    forall i, j :: 0 <= i < j < |refs| ==> refs[i] != refs[j]
  }

  function Count(ok: seq<bool>, n: nat): nat
    requires n <= |ok|
  {
    if n == 0 then 0 else Count(ok, n - 1) + if ok[n - 1] then 1 else 0
  }

  lemma {:induction false} RowsWithoutHolds(rows: map<Ref, Row>, refs: seq<Ref>, ok: seq<bool>, r: Ref)
    requires |refs| <= |ok|
    ensures r in RowsWithout(rows, refs, ok) <==> r in rows && forall i :: 0 <= i < |refs| && refs[i] == r ==> !ok[i]
    ensures r in RowsWithout(rows, refs, ok) ==> RowsWithout(rows, refs, ok)[r] == rows[r]
  {
    if refs != [] {
      var n := |refs| - 1;
      RowsWithoutHolds(rows, refs[..n], ok, r);
      assert forall i :: 0 <= i < n ==> refs[..n][i] == refs[i];
    }
  }

  /** Run alone, the number of successful deletions is the number of rows removed. */
  lemma {:induction false} RemovedRowsAreCounted(rows: map<Ref, Row>, refs: seq<Ref>, ok: seq<bool>)
    requires |refs| <= |ok| && Distinct(refs) && forall i :: 0 <= i < |refs| ==> refs[i] in rows
    ensures |RowsWithout(rows, refs, ok)| + Count(ok, |refs|) == |rows|
  {
    if refs != [] {
      var n := |refs| - 1;
      var rest := RowsWithout(rows, refs[..n], ok);
      RemovedRowsAreCounted(rows, refs[..n], ok);
      RowsWithoutHolds(rows, refs[..n], ok, refs[n]);
      if ok[n] {
        var less := rest - {refs[n]};
        assert refs[n] in rest;
        assert less.Keys == rest.Keys - {refs[n]};
        assert |less.Keys| == |rest.Keys| - 1;
        assert |less| == |less.Keys| && |rest| == |rest.Keys|;
      }
    }
  }

  /** AddFile for every member of a new bucket: read back in request order, nobody else's list moves. */
  lemma AddAllReads(table: seq<BRow>, nextId: int, b: string, ms: seq<Member>)
    requires FilesOf(table, b) == []
    ensures FilesOf(AddAll(table, nextId, b, ms), b) == AsFiles(ms)
    ensures forall c :: c != b ==> FilesOf(AddAll(table, nextId, b, ms), c) == FilesOf(table, c)
  {
    AddAllLists(table, nextId, b, ms, b);
    forall c | c != b ensures FilesOf(AddAll(table, nextId, b, ms), c) == FilesOf(table, c) {
      AddAllLists(table, nextId, b, ms, c);
    }
  }

  /* ---------- listed blobs ---------- */

  function FileKeys(files: seq<BFile>): (keys: seq<string>)
    ensures |keys| == |files| && forall i :: 0 <= i < |files| ==> keys[i] == files[i].key
  {
    seq(|files|, i requires 0 <= i < |files| => files[i].key)
  }

  /** The blob map after deleting, list by list, every blob whose deletion succeeds. */
  function DropLists(blobs: map<string, Bytes>, lists: seq<seq<BFile>>, ok: seq<seq<bool>>): map<string, Bytes>
    requires |lists| <= |ok| && forall i :: 0 <= i < |lists| ==> |lists[i]| <= |ok[i]|
  {
    if lists == [] then blobs
    else
      var n := |lists| - 1;
      DropAll(DropLists(blobs, lists[..n], ok), FileKeys(lists[n]), ok[n])
  }

  ghost predicate DroppedBy(lists: seq<seq<BFile>>, ok: seq<seq<bool>>, k: string)
    requires |lists| <= |ok| && forall i :: 0 <= i < |lists| ==> |lists[i]| <= |ok[i]|
  {
    exists i, j :: 0 <= i < |lists| && 0 <= j < |lists[i]| && lists[i][j].key == k && ok[i][j]
  }

  /** Exactly the listed blobs whose deletion succeeded are gone; all others keep their bytes. */
  lemma {:induction false} DropListsHolds(blobs: map<string, Bytes>, lists: seq<seq<BFile>>, ok: seq<seq<bool>>,
                                          k: string)
    requires |lists| <= |ok| && forall i :: 0 <= i < |lists| ==> |lists[i]| <= |ok[i]|
    ensures k in DropLists(blobs, lists, ok) <==> k in blobs && !DroppedBy(lists, ok, k)
    ensures k in DropLists(blobs, lists, ok) ==> DropLists(blobs, lists, ok)[k] == blobs[k]
  {
    if lists != [] {
      var n := |lists| - 1;
      var before := DropLists(blobs, lists[..n], ok);
      DropListsHolds(blobs, lists[..n], ok, k);
      DropAllHolds(before, FileKeys(lists[n]), ok[n], k);
      if DroppedBy(lists[..n], ok, k) {
        var i, j :| 0 <= i < n && 0 <= j < |lists[..n][i]| && lists[..n][i][j].key == k && ok[i][j];
        assert lists[i][j].key == k;
      }
      if DroppedBy(lists, ok, k) {
        var i, j :| 0 <= i < |lists| && 0 <= j < |lists[i]| && lists[i][j].key == k && ok[i][j];
        if i < n {
          assert lists[..n][i] == lists[i];
          assert DroppedBy(lists[..n], ok, k);
        } else {
          assert FileKeys(lists[n])[j] == k;
        }
      }
      if exists j :: 0 <= j < |FileKeys(lists[n])| && FileKeys(lists[n])[j] == k && ok[n][j] {
        var j :| 0 <= j < |FileKeys(lists[n])| && FileKeys(lists[n])[j] == k && ok[n][j];
        assert lists[n][j].key == k;
      }
    }
  }

  /** What a listing finds for one share: its own blob, its bucket files, or nothing for a paste. */
  function ListOf(rows: map<Ref, Row>, table: seq<BRow>, r: Ref): (files: seq<BFile>)
    requires r in rows
    ensures |files| <= |table| + 1
  {
    match r.kind
    case FileShare => [OwnFile(r.slug, rows[r].meta)]
    case BucketShare => FilesOf(table, r.slug)
    case PasteShare => []
  }

  /** A duplicate-free list drawn from another is no longer than it. */
  lemma {:induction false} ListIsNoLonger(a: seq<Ref>, b: seq<Ref>)
    requires Distinct(a) && forall r :: r in a ==> r in b
    ensures |a| <= |b|
  {
    if a != [] {
      var n := |a| - 1;
      assert a[n] in a;
      var i :| 0 <= i < |b| && b[i] == a[n];
      var rest := b[..i] + b[i + 1..];
      forall r | r in a[..n] ensures r in rest {
        var j :| 0 <= j < n && a[j] == r;
        assert r in a;
        var k :| 0 <= k < |b| && b[k] == r;
        assert k != i;
        assert if k < i then rest[k] == r else rest[k - 1] == r;
      }
      ListIsNoLonger(a[..n], rest);
    }
  }

  lemma {:induction false} FilesWithoutIsNoLonger(table: seq<BRow>, refs: seq<Ref>, ok: seq<bool>)
    requires |refs| <= |ok|
    ensures |FilesWithout(table, refs, ok)| <= |table|
  {
    if refs != [] { FilesWithoutIsNoLonger(table, refs[..|refs| - 1], ok); }
  }
}
