/** The entities: shares, table rows, bucket members and the bytes behind them. */
module Shares {
  import opened Wrappers
  import opened Images

  datatype Kind = FileShare | BucketShare | PasteShare

  /** A share's identity: the table it lives in and its slug. */
  datatype Ref = Ref(kind: Kind, slug: string)

  datatype Info =
    | FileInfo(filename: string, size: int, mime: string)
    | BucketInfo
    | PasteInfo(title: string, text: string, lang: string)

  /** The columns a SELECT by slug returns; `expires` is the stored whole second. */
  datatype Meta = Meta(secret: string, pwHash: string, oneUse: bool, expires: Option<int>, info: Info)

  /** A row of files, buckets or pastes; `mark` is downloaded_at / viewed_at. */
  datatype Row = Row(meta: Meta, mark: Option<int>)

  /** One file of a bucket creation request. */
  datatype Input = Input(filename: string, size: int, mime: string, content: Bytes)

  /** One file as the readers see it: where its bytes are and how it is called. */
  datatype BFile = BFile(key: string, filename: string, size: int, mime: string)

  /** A request file together with the storage key drawn for it. */
  datatype Member = Member(key: string, input: Input)

  /** A row of bucket_files; the table is kept in id order. */
  datatype BRow = BRow(id: int, bucket: string, file: BFile)

  /** One delivered item: a download or a ZIP entry. */
  datatype Entry = Entry(name: string, data: Bytes)

  function AsFile(m: Member): BFile {
    BFile(m.key, m.input.filename, m.input.size, if m.input.mime == "" then OCTET_STREAM else m.input.mime)
  }

  function AsFiles(ms: seq<Member>): (fs: seq<BFile>)
    ensures |fs| == |ms|
    ensures forall i :: 0 <= i < |ms| ==> fs[i] == AsFile(ms[i])
  {
    seq(|ms|, i requires 0 <= i < |ms| => AsFile(ms[i]))
  }

  /** A file share's single blob, seen as a one-element file list: its key is the slug itself. */
  function OwnFile(slug: string, meta: Meta): BFile {
    if meta.info.FileInfo? then BFile(slug, meta.info.filename, meta.info.size, meta.info.mime)
    else BFile(slug, "", 0, "")
  }

  predicate HasKey(fs: seq<BFile>, k: string) {
    exists i :: 0 <= i < |fs| && fs[i].key == k
  }

  /** SELECT ... FROM bucket_files WHERE bucket_slug = b ORDER BY id. */
  function FilesOf(table: seq<BRow>, b: string): (fs: seq<BFile>)
    ensures |fs| <= |table|
  {
    if table == [] then []
    else
      var last := table[|table| - 1];
      FilesOf(table[..|table| - 1], b) + if last.bucket == b then [last.file] else []
  }

  /** What ON DELETE CASCADE leaves of bucket_files when bucket b goes. */
  function DropBucket(table: seq<BRow>, b: string): (t: seq<BRow>)
    ensures |t| <= |table|
  {
    if table == [] then []
    else
      var last := table[|table| - 1];
      DropBucket(table[..|table| - 1], b) + if last.bucket == b then [] else [last]
  }

  /** AUTOINCREMENT: ids grow along the table and stay below the next id. */
  ghost predicate InIdOrder(table: seq<BRow>, nextId: int) {
    && (forall i, j :: 0 <= i < j < |table| ==> table[i].id < table[j].id)
    && (forall i :: 0 <= i < |table| ==> table[i].id < nextId)
  }

  lemma FilesOfAppend(table: seq<BRow>, row: BRow, b: string)
    ensures FilesOf(table + [row], b) == FilesOf(table, b) + if row.bucket == b then [row.file] else []
  {
    assert (table + [row])[..|table|] == table;
  }

  lemma {:induction false} FilesOfDrop(table: seq<BRow>, gone: string, b: string)
    ensures FilesOf(DropBucket(table, gone), b) == if b == gone then [] else FilesOf(table, b)
  {
    if table != [] {
      var n := |table| - 1;
      FilesOfDrop(table[..n], gone, b);
      if table[n].bucket != gone {
        FilesOfAppend(DropBucket(table[..n], gone), table[n], b);
      } else {
        assert DropBucket(table, gone) == DropBucket(table[..n], gone);
      }
    }
  }

  lemma {:induction false} DropKeepsRows(table: seq<BRow>, gone: string, row: BRow)
    ensures row in DropBucket(table, gone) <==> row in table && row.bucket != gone
  {
    if table != [] {
      var n := |table| - 1;
      DropKeepsRows(table[..n], gone, row);
      assert table == table[..n] + [table[n]];
    }
  }

  lemma {:induction false} DropKeepsOrder(table: seq<BRow>, gone: string, nextId: int)
    requires InIdOrder(table, nextId)
    ensures InIdOrder(DropBucket(table, gone), nextId)
  {
    if table != [] {
      var n := |table| - 1;
      DropKeepsOrder(table[..n], gone, table[n].id);
    }
  }

  /** The rows of a table and the per-bucket lists name the same files. */
  lemma {:induction false} FilesOfMembers(table: seq<BRow>, b: string, f: BFile)
    ensures f in FilesOf(table, b) <==> exists i :: 0 <= i < |table| && table[i].bucket == b && table[i].file == f
  {
    if table != [] {
      var n := |table| - 1;
      FilesOfMembers(table[..n], b, f);
      if i :| 0 <= i < |table| && table[i].bucket == b && table[i].file == f {
        if i < n { assert table[..n][i] == table[i]; }
      }
      if f in FilesOf(table[..n], b) {
        var i :| 0 <= i < n && table[..n][i].bucket == b && table[..n][i].file == f;
        assert table[i].bucket == b;
      }
    }
  }
}
