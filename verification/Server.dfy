/**
 The services and the worker as they are written: sequential code over a mutable blob store and
 mutable tables, one object for the process.  The fate of every call is a parameter, so each contract
 covers every fault pattern.  Each method is proved to do what `Answers` says; `Solo` proves the same of
 the step machine's operations run alone.
 */
module Server {
  import opened Wrappers
  import opened Images
  import opened Shares
  import opened Machine
  import opened Batches
  import opened Answers
  import Columns
  import Expiry

  class Pbin {
    const bcrypt: (string, string) -> bool
    var now: int
    var rows: map<Ref, Row>
    var bfiles: seq<BRow>
    var nextId: int
    var blobs: map<string, Bytes>

    constructor (now: int, bcrypt: (string, string) -> bool)
      ensures this.now == now && rows == map[] && bfiles == [] && blobs == map[] && nextId == 1
    {
      this.bcrypt := bcrypt;
      this.now := now;
      rows, bfiles, nextId, blobs := map[], [], 1, map[];
    }

    /** The tables and the store as a world of the step machine, without its history. */
    function AsWorld(): World
      reads this
    {
      InitialWorld(now, bcrypt).(rows := rows, bfiles := bfiles, nextId := nextId, blobs := blobs)
    }

    /** The row is unmarked and has the secret, password, flag and deadline that were asked for now. */
    ghost predicate KeepsRequest(row: Row, secret: string, pwHash: string, oneUse: bool, expiry: string)
      reads this
    {
      && row.mark.None? && row.meta.secret == secret && row.meta.pwHash == pwHash && row.meta.oneUse == oneUse
      && expiry in Expiry.PRESETS && Expiry.Honours(expiry, now, row.meta.expires)
    }

    /** A share created now, written to its columns and read back: local validation has passed. */
    function NewMeta(secret: string, pwHash: string, oneUse: bool, expiry: string, info: Info): (meta: Meta)
      requires expiry in Expiry.PRESETS
      reads this
      ensures meta == Meta(secret, pwHash, oneUse, meta.expires, info)
      ensures Expiry.Honours(expiry, now, meta.expires)
    {
      var deadline := Expiry.Deadline(expiry, now);
      Expiry.DeadlineHonours(expiry, now);
      Columns.ReadBack(secret, pwHash, oneUse, deadline, info);
      Columns.Scan(Columns.Insert(secret, pwHash, oneUse, deadline), info)
    }

    /* ---------- creation ---------- */

    /**
     file.Service.Upload behind the handler's peek and MIME decision.  Either the row and the uploaded
     bytes are there, or nothing has changed; only a failed insert followed by a failed rollback
     leaves the bytes.
     */
    method Upload(slug: string, secret: string, pwHash: string, oneUse: bool, expiry: string, filename: string,
                  size: int, body: Bytes, peek: nat, sniffed: string, writeOk: bool, insertOk: bool, undoOk: bool)
      returns (o: Outcome)
      requires peek <= |body| && peek <= PEEK_LIMIT
      requires slug !in blobs && Ref(FileShare, slug) !in rows
      modifies this`rows, this`blobs
      ensures expiry in Expiry.PRESETS ==>
                var mime := Decide(sniffed, body[..peek]);
                var meta := old(NewMeta(secret, pwHash, oneUse, expiry, FileInfo(filename, size, mime)));
                (AsWorld(), o) == FileCreate(old(AsWorld()), slug, meta, body, writeOk, insertOk, undoOk)
      ensures o.Stored? <==> expiry in Expiry.PRESETS && writeOk && insertOk
      ensures o.Stored? ==>
                var info := FileInfo(filename, size, Decide(sniffed, body[..peek]));
                var meta := old(NewMeta(secret, pwHash, oneUse, expiry, info));
                rows == old(rows)[Ref(FileShare, slug) := Row(meta, None)] && blobs == old(blobs)[slug := body]
      ensures o.Stored? ==> KeepsRequest(rows[Ref(FileShare, slug)], secret, pwHash, oneUse, expiry)
      ensures !o.Stored? ==> rows == old(rows)
      ensures !o.Stored? ==>
                blobs == if expiry in Expiry.PRESETS && writeOk && !undoOk then old(blobs)[slug := body] else old(blobs)
    {
      if expiry !in Expiry.PRESETS {
        return Rejected;
      }
      var mime, content := Sniff(body, peek, sniffed);
      var meta := NewMeta(secret, pwHash, oneUse, expiry, FileInfo(filename, size, mime));
      if !writeOk {
        return Failed;
      }
      blobs := blobs[slug := content];
      if !insertOk {
        if undoOk {
          blobs := blobs - {slug};
          assert blobs == old(blobs) && old(blobs) - {slug} == old(blobs);
        }
        return Failed;
      }
      rows := rows[Ref(FileShare, slug) := Row(meta, None)];
      return Stored(Ref(FileShare, slug));
    }

    /** paste.Service.Create. */
    method CreatePaste(slug: string, secret: string, pwHash: string, oneUse: bool, expiry: string,
                       title: string, text: string, lang: string, insertOk: bool) returns (o: Outcome)
      requires Ref(PasteShare, slug) !in rows
      modifies this`rows
      ensures expiry in Expiry.PRESETS && text != "" ==>
                var info := PasteInfo(title, text, if lang == "" then "text" else lang);
                (AsWorld(), o) ==
                  PasteCreate(old(AsWorld()), slug, old(NewMeta(secret, pwHash, oneUse, expiry, info)), insertOk)
      ensures o.Stored? <==> expiry in Expiry.PRESETS && text != "" && insertOk
      ensures o.Stored? ==>
                var info := PasteInfo(title, text, if lang == "" then "text" else lang);
                var meta := old(NewMeta(secret, pwHash, oneUse, expiry, info));
                rows == old(rows)[Ref(PasteShare, slug) := Row(meta, None)]
      ensures o.Stored? ==> KeepsRequest(rows[Ref(PasteShare, slug)], secret, pwHash, oneUse, expiry)
      ensures !o.Stored? ==> rows == old(rows)
    {
      var language := lang;
      if language == "" {
        language := "text";
      }
      if text == "" || expiry !in Expiry.PRESETS {
        return Rejected;
      }
      var meta := NewMeta(secret, pwHash, oneUse, expiry, PasteInfo(title, text, language));
      if !insertOk {
        return Failed;
      }
      rows := rows[Ref(PasteShare, slug) := Row(meta, None)];
      return Stored(Ref(PasteShare, slug));
    }

    /** The best-effort rollback loops of Create, and the blob loop of Delete and the sweep. */
    method DropBlobs(keys: seq<string>, ok: seq<bool>)
      requires |keys| <= |ok|
      modifies this`blobs
      ensures blobs == DropAll(old(blobs), keys, ok)
    {
      for i := 0 to |keys|
        invariant blobs == DropAll(old(blobs), keys[..i], ok)
      {
        assert keys[..i + 1][..i] == keys[..i];
        if ok[i] {
          blobs := blobs - {keys[i]};
        }
      }
      assert keys[..|keys|] == keys;
    }

    /**
     bucket.Service.Create.  Up to the bucket row it is all or nothing: a failing file at any index, or
     a failing row insert, leaves rows and tables alone, and the blob map too when the rollback's
     deletions succeed.  After it, a failure at the k-th AddFile leaves the row, the k files before it
     in request order, and every blob.
     */
    method CreateBucket(slug: string, secret: string, pwHash: string, oneUse: bool, expiry: string, inputs: seq<Input>,
                        calls: CreateCalls)
      returns (o: Outcome, stored: seq<Member>)
      requires calls.Cover(|inputs|)
      requires Ref(BucketShare, slug) !in rows && FilesOf(bfiles, slug) == []
      requires forall i :: 0 <= i < |inputs| && calls.draws[i].Some? ==> calls.draws[i].value !in blobs
      modifies this`rows, this`bfiles, this`nextId, this`blobs
      ensures expiry in Expiry.PRESETS ==>
                var meta := old(NewMeta(secret, pwHash, oneUse, expiry, BucketInfo));
                (AsWorld(), o) == BucketCreate(old(AsWorld()), slug, meta, inputs, calls)
      ensures expiry !in Expiry.PRESETS ==> o == Rejected && stored == []
      ensures expiry in Expiry.PRESETS ==> stored == MembersOf(inputs, calls.draws, Prefix(calls.draws, |inputs|))
      ensures o.Stored? ==> KeepsRequest(rows[Ref(BucketShare, slug)], secret, pwHash, oneUse, expiry)
      ensures var added := |stored| == |inputs| && calls.insertOk && expiry in Expiry.PRESETS;
              && (!added ==> !o.Stored? && rows == old(rows) && bfiles == old(bfiles) && nextId == old(nextId))
              && (!added ==> blobs == DropAll(PutAll(old(blobs), stored), KeysOf(stored), calls.undoOk))
              && (!added && (forall i :: 0 <= i < |calls.undoOk| ==> calls.undoOk[i]) ==> blobs == old(blobs))
              && (added ==> blobs == PutAll(old(blobs), stored))
              && (added ==> rows == old(rows)[Ref(BucketShare, slug) :=
                                              Row(old(NewMeta(secret, pwHash, oneUse, expiry, BucketInfo)), None)])
              && (added ==> FilesOf(bfiles, slug) == AsFiles(stored[..OkPrefix(calls.addOk, |inputs|)]))
              && (added ==> forall c :: c != slug ==> FilesOf(bfiles, c) == FilesOf(old(bfiles), c))
              && (added ==> nextId == old(nextId) + OkPrefix(calls.addOk, |inputs|))
              && (added ==> (o.Stored? <==> OkPrefix(calls.addOk, |inputs|) == |inputs|))
    {
      stored := [];
      if expiry !in Expiry.PRESETS {
        RollbackRestores(blobs, [], calls.undoOk);
        return Rejected, stored;
      }
      var meta := NewMeta(secret, pwHash, oneUse, expiry, BucketInfo);
      o, stored := CreateAccepted(slug, meta, inputs, calls);
      CreateIsAllOrNothing(old(AsWorld()), slug, meta, inputs, calls);
    }

    /** Create once the request is accepted. */
    method CreateAccepted(slug: string, meta: Meta, inputs: seq<Input>, calls: CreateCalls)
      returns (o: Outcome, stored: seq<Member>)
      requires calls.Cover(|inputs|)
      requires Ref(BucketShare, slug) !in rows && FilesOf(bfiles, slug) == []
      modifies this`rows, this`bfiles, this`nextId, this`blobs
      ensures (AsWorld(), o) == BucketCreate(old(AsWorld()), slug, meta, inputs, calls)
      ensures stored == MembersOf(inputs, calls.draws, Prefix(calls.draws, |inputs|))
    {
      ghost var w := AsWorld();
      stored := WriteLoop(inputs, calls);
      if |stored| < |inputs| || !calls.insertOk {
        CreateUndone(w, slug, meta, inputs, calls);
        DropBlobs(KeysOf(stored), calls.undoOk);
        o := Failed;
      } else {
        CreateAdds(w, slug, meta, inputs, calls);
        o := InsertBucket(slug, meta, stored, calls.addOk);
      }
    }

    /** The bucket row and a bucket_files row per stored member, until an AddFile fails. */
    method InsertBucket(slug: string, meta: Meta, stored: seq<Member>, addOk: seq<bool>) returns (o: Outcome)
      requires |addOk| >= |stored|
      modifies this`rows, this`bfiles, this`nextId
      ensures var k := OkPrefix(addOk, |stored|);
              && rows == old(rows)[Ref(BucketShare, slug) := Row(meta, None)]
              && bfiles == AddAll(old(bfiles), old(nextId), slug, stored[..k])
              && nextId == old(nextId) + k
              && o == (if k == |stored| then Stored(Ref(BucketShare, slug)) else Failed)
    {
      rows := rows[Ref(BucketShare, slug) := Row(meta, None)];
      o := AddLoop(slug, stored, addOk);
    }

    /** The first loop: draw a key and write, file by file, until something fails. */
    method WriteLoop(inputs: seq<Input>, calls: CreateCalls) returns (stored: seq<Member>)
      requires |calls.draws| >= |inputs|
      modifies this`blobs
      ensures stored == MembersOf(inputs, calls.draws, Prefix(calls.draws, |inputs|))
      ensures blobs == PutAll(old(blobs), stored)
    {
      stored := [];
      for i := 0 to |inputs|
        invariant Prefix(calls.draws, i) == i && stored == MembersOf(inputs, calls.draws, i)
        invariant blobs == PutAll(old(blobs), stored)
      {
        if calls.draws[i].None? {
          PrefixStops(calls.draws, i, |inputs|);
          return;
        }
        var m := Member(calls.draws[i].value, inputs[i]);
        blobs := blobs[m.key := m.input.content];
        assert (stored + [m])[..i] == stored;
        stored := stored + [m];
      }
    }

    /** The last loop: one AddFile per stored file, until one fails. */
    method AddLoop(slug: string, stored: seq<Member>, addOk: seq<bool>) returns (o: Outcome)
      requires |addOk| >= |stored|
      modifies this`bfiles, this`nextId
      ensures var k := OkPrefix(addOk, |stored|);
              && bfiles == AddAll(old(bfiles), old(nextId), slug, stored[..k])
              && nextId == old(nextId) + k
              && o == (if k == |stored| then Stored(Ref(BucketShare, slug)) else Failed)
    {
      for i := 0 to |stored|
        invariant OkPrefix(addOk, i) == i
        invariant bfiles == AddAll(old(bfiles), old(nextId), slug, stored[..i]) && nextId == old(nextId) + i
      {
        if !addOk[i] {
          OkPrefixStops(addOk, i, |stored|);
          return Failed;
        }
        assert stored[..i + 1][..i] == stored[..i];
        bfiles := bfiles + [BRow(nextId, slug, AsFile(stored[i]))];
        nextId := nextId + 1;
      }
      return Stored(Ref(BucketShare, slug));
    }

    /* ---------- reading ---------- */

    /** GetBySlug's second query: scan the table in id order, keep the bucket's rows. */
    method SelectFiles(slug: string) returns (files: seq<BFile>)
      ensures files == FilesOf(bfiles, slug)
    {
      files := [];
      for i := 0 to |bfiles|
        invariant files == FilesOf(bfiles[..i], slug)
      {
        assert bfiles[..i + 1] == bfiles[..i] + [bfiles[i]];
        FilesOfAppend(bfiles[..i], bfiles[i], slug);
        if bfiles[i].bucket == slug {
          files := files + [bfiles[i].file];
        }
      }
      assert bfiles[..|bfiles|] == bfiles;
    }

    /** GetFile's search loop: the first file with the key, if there is one. */
    method FindFile(files: seq<BFile>, key: string) returns (target: Option<BFile>)
      ensures target == Find(files, key)
      ensures target.Some? <==> HasKey(files, key)
      ensures target.Some? ==> exists i :: 0 <= i < |files| && files[i] == target.value && files[i].key == key &&
                                           forall j :: 0 <= j < i ==> files[j].key != key
    {
      for i := 0 to |files|
        invariant forall j :: 0 <= j < i ==> files[j].key != key
        invariant Find(files[i..], key) == Find(files, key)
      {
        if files[i].key == key {
          return Some(files[i]);
        }
        assert files[i..][1..] == files[i + 1..];
      }
      return None;
    }

    /** The first |entries| files are written with their stored bytes; the next one cannot be read. */
    ghost predicate Written(files: seq<BFile>, readOk: seq<bool>, entries: seq<Entry>)
      requires |readOk| >= |files|
      reads this
    {
      && |entries| <= |files|
      && (forall i :: 0 <= i < |entries| ==>
            files[i].key in blobs && readOk[i] && entries[i] == Entry(files[i].filename, blobs[files[i].key]))
      && (|entries| < |files| ==> !(readOk[|entries|] && files[|entries|].key in blobs))
    }

    /** StreamZIP's loop: one entry per file, broken off at the first blob that cannot be read. */
    method WriteEntries(files: seq<BFile>, readOk: seq<bool>) returns (entries: seq<Entry>)
      requires |readOk| >= |files|
      ensures entries == SentEntries(blobs, files, readOk, |files|)
      ensures Written(files, readOk, entries)
    {
      entries := [];
      for i := 0 to |files|
        invariant |entries| == i && entries == SentEntries(blobs, files, readOk, i)
        invariant forall j :: 0 <= j < i ==>
                    files[j].key in blobs && readOk[j] && entries[j] == Entry(files[j].filename, blobs[files[j].key])
      {
        if !readOk[i] || files[i].key !in blobs {
          SentStops(blobs, files, readOk, i, |files|);
          return;
        }
        entries := entries + [Entry(files[i].filename, blobs[files[i].key])];
      }
    }

    /** The checks every content read makes before anything is consumed or sent. */
    predicate Admits(meta: Meta, pw: string)
      reads this
    {
      !Expiry.Lapsed(meta.expires, now) && (meta.pwHash == "" || (pw != "" && bcrypt(meta.pwHash, pw)))
    }

    /** Both lookups succeed, the row is there, and its checks pass. */
    predicate Passes(r: Ref, pw: string, rowOk: bool, filesOk: bool)
      reads this
    {
      rowOk && filesOk && r in rows && Admits(rows[r].meta, pw)
    }

    /** The read gets its content: nothing to consume, or consumed just now and by this very read. */
    predicate Serves(r: Ref, pw: string, rowOk: bool, filesOk: bool, mark: Choice)
      reads this
    {
      Passes(r, pw, rowOk, filesOk) &&
      (rows[r].meta.oneUse ==> !mark.Fail? && !mark.FailLate? && rows[r].mark.None?)
    }

    /** The rows after a read: marked now if the conditional UPDATE was applied, else untouched. */
    function RowsAfter(r: Ref, pw: string, rowOk: bool, filesOk: bool, mark: Choice): map<Ref, Row>
      reads this
    {
      if Passes(r, pw, rowOk, filesOk) && rows[r].meta.oneUse && !mark.Fail? && rows[r].mark.None?
      then rows[r := Row(rows[r].meta, Some(Expiry.Unix(now)))] else rows
    }

    /**
     The common part of Get, StreamZIP and the paste's Get: lookup, expiry, password, consume, in this
     order.  A refusal changes nothing, except that a mark whose row count could not be read stays set.
     */
    method Admit(r: Ref, pw: string, rowOk: bool, filesOk: bool, mark: Choice) returns (o: Result<Meta, Outcome>)
      modifies this`rows
      ensures (AsWorld(), o) == Admission(old(AsWorld()), r, pw, rowOk, filesOk, mark)
      ensures o.Ok? <==> old(Serves(r, pw, rowOk, filesOk, mark))
      ensures rows == old(RowsAfter(r, pw, rowOk, filesOk, mark))
      ensures o.Ok? ==> o.value == old(rows)[r].meta
      ensures o.Ok? && o.value.oneUse ==> old(rows)[r].mark.None? && rows[r].mark.Some?
      ensures o.Err? && !mark.FailLate? ==> rows == old(rows)
      ensures o.Err? && rowOk && filesOk ==>
                o.error == if r !in old(rows) then NotFound
                           else if Expiry.Lapsed(old(rows)[r].meta.expires, now) then LapsedShare
                           else if !old(Admits(rows[r].meta, pw)) then WrongPassword
                           else if mark.Fail? || mark.FailLate? then Failed
                           else AlreadyConsumed
      ensures o.Err? && !(rowOk && filesOk) ==> o.error == Failed || (rowOk && o.error == NotFound && r !in old(rows))
    {
      if !rowOk { return Err(Failed); }
      if r !in rows { return Err(NotFound); }
      if !filesOk { return Err(Failed); }
      var meta := rows[r].meta;
      if Expiry.Lapsed(meta.expires, now) { return Err(LapsedShare); }
      if meta.pwHash != "" && (pw == "" || !bcrypt(meta.pwHash, pw)) { return Err(WrongPassword); }
      if meta.oneUse {
        if mark.Fail? { return Err(Failed); }
        var consumed := rows[r].mark.None?;
        if consumed {
          rows := rows[r := Row(meta, Some(Expiry.Unix(now)))];
        }
        if mark.FailLate? { return Err(Failed); }
        if !consumed { return Err(AlreadyConsumed); }
      }
      return Ok(meta);
    }

    /** file.Service.Get: after admission, the bytes under the slug. */
    method Get(slug: string, pw: string, rowOk: bool, mark: Choice, readOk: bool) returns (o: Outcome)
      modifies this`rows
      ensures (AsWorld(), o) == ContentGet(old(AsWorld()), Ref(FileShare, slug), pw, rowOk, true, mark, [readOk])
      ensures var r := Ref(FileShare, slug);
              && rows == old(RowsAfter(r, pw, rowOk, true, mark))
              && (o.Sent? <==> old(Serves(r, pw, rowOk, true, mark)) && readOk && slug in blobs)
              && (o.Broken? <==> old(Serves(r, pw, rowOk, true, mark)) && !(readOk && slug in blobs))
              && (o.Sent? ==> o.meta == old(rows)[r].meta &&
                              o.entries == [Entry(OwnFile(slug, o.meta).filename, blobs[slug])])
    {
      var r := Ref(FileShare, slug);
      var admitted := Admit(r, pw, rowOk, true, mark);
      if admitted.Err? { return admitted.error; }
      var meta := admitted.value;
      var files := [OwnFile(slug, meta)];
      OneEntry(blobs, files[0], readOk);
      if !readOk || slug !in blobs { return Broken(r, Fetch, meta, files, []); }
      return Sent(r, Fetch, meta, files, [Entry(files[0].filename, blobs[slug])]);
    }

    /** paste.Service.Get: after admission, the text in the row itself. */
    method GetPaste(slug: string, pw: string, rowOk: bool, mark: Choice) returns (o: Outcome)
      modifies this`rows
      ensures (AsWorld(), o) == ContentGet(old(AsWorld()), Ref(PasteShare, slug), pw, rowOk, true, mark, [true])
      ensures var r := Ref(PasteShare, slug);
              && rows == old(RowsAfter(r, pw, rowOk, true, mark))
              && (o.Sent? <==> old(Serves(r, pw, rowOk, true, mark)))
              && (o.Sent? ==> o.meta == old(rows)[r].meta)
    {
      var r := Ref(PasteShare, slug);
      var admitted := Admit(r, pw, rowOk, true, mark);
      if admitted.Err? { return admitted.error; }
      return Sent(r, Fetch, admitted.value, [], []);
    }

    /**
     StreamZIP.  After admission one entry per listed file, in listing order, with the stored bytes;
     it is complete exactly when every blob can be read, and otherwise stops at the first that cannot.
     */
    method StreamZip(slug: string, pw: string, rowOk: bool, filesOk: bool, mark: Choice, readOk: seq<bool>)
      returns (o: Outcome)
      requires |readOk| >= |FilesOf(bfiles, slug)|
      modifies this`rows
      ensures (AsWorld(), o) == ContentGet(old(AsWorld()), Ref(BucketShare, slug), pw, rowOk, filesOk, mark, readOk)
      ensures var r := Ref(BucketShare, slug);
              && rows == old(RowsAfter(r, pw, rowOk, filesOk, mark))
              && (o.Sent? || o.Broken? <==> old(Serves(r, pw, rowOk, filesOk, mark)))
      ensures o.Sent? || o.Broken? ==> o.files == FilesOf(bfiles, slug) && Written(o.files, readOk, o.entries)
      ensures o.Sent? ==> |o.entries| == |o.files|
      ensures o.Broken? ==> |o.entries| < |o.files|
    {
      var r := Ref(BucketShare, slug);
      var files := SelectFiles(slug);
      var admitted := Admit(r, pw, rowOk, filesOk, mark);
      if admitted.Err? { return admitted.error; }
      var entries := WriteEntries(files, readOk);
      if |entries| < |files| { return Broken(r, Fetch, admitted.value, files, entries); }
      return Sent(r, Fetch, admitted.value, files, entries);
    }

    /**
     GetFile: one file of a bucket by its storage key.  It makes the same checks as StreamZIP but
     consumes nothing: tables and blobs stay, even for a one-use bucket that is already consumed.
     */
    method GetFile(slug: string, pw: string, key: string, rowOk: bool, filesOk: bool, readOk: bool) returns (o: Outcome)
      ensures o == OneFileGet(AsWorld(), slug, pw, key, rowOk, filesOk, readOk)
      ensures var files := FilesOf(bfiles, slug); var passes := Passes(Ref(BucketShare, slug), pw, rowOk, filesOk);
              && (o.Sent? <==> passes && HasKey(files, key) && readOk && key in blobs)
              && (o.Sent? ==> exists i :: 0 <= i < |files| && files[i].key == key &&
                                (forall j :: 0 <= j < i ==> files[j].key != key) &&
                                o.entries == [Entry(files[i].filename, blobs[key])])
              && (o.NotFound? <==> rowOk && (Ref(BucketShare, slug) in rows ==> passes && !HasKey(files, key)))
    {
      var r := Ref(BucketShare, slug);
      if !rowOk { return Failed; }
      if r !in rows { return NotFound; }
      if !filesOk { return Failed; }
      var files := SelectFiles(slug);
      var meta := rows[r].meta;
      if Expiry.Lapsed(meta.expires, now) { return LapsedShare; }
      if meta.pwHash != "" && (pw == "" || !bcrypt(meta.pwHash, pw)) { return WrongPassword; }
      var target := FindFile(files, key);
      if target.None? { return NotFound; }
      if !readOk || key !in blobs { return Broken(r, OneFile(key), meta, [target.value], []); }
      return Sent(r, OneFile(key), meta, [target.value], [Entry(target.value.filename, blobs[key])]);
    }

    /** file.Service.GetMeta: no password is asked for, nothing is consumed. */
    method GetFileMeta(slug: string, rowOk: bool) returns (o: Outcome)
      ensures o == MetaGet(AsWorld(), Ref(FileShare, slug), "", rowOk, true)
      ensures o.Accepted? <==>
                && rowOk && Ref(FileShare, slug) in rows && !Expiry.Lapsed(rows[Ref(FileShare, slug)].meta.expires, now)
      ensures o.Accepted? ==> o.meta == rows[Ref(FileShare, slug)].meta
    {
      var r := Ref(FileShare, slug);
      if !rowOk { return Failed; }
      if r !in rows { return NotFound; }
      var meta := rows[r].meta;
      if Expiry.Lapsed(meta.expires, now) { return LapsedShare; }
      return Accepted(r, meta, [OwnFile(slug, meta)]);
    }

    /** bucket.Service.GetMeta: the names and keys of a bucket's files, behind its password; nothing is consumed. */
    method GetBucketMeta(slug: string, pw: string, rowOk: bool, filesOk: bool) returns (o: Outcome)
      ensures o == MetaGet(AsWorld(), Ref(BucketShare, slug), pw, rowOk, filesOk)
      ensures o.Accepted? <==> Passes(Ref(BucketShare, slug), pw, rowOk, filesOk)
      ensures o.Accepted? ==> o.meta == rows[Ref(BucketShare, slug)].meta && o.files == FilesOf(bfiles, slug)
      ensures rowOk && filesOk && Ref(BucketShare, slug) in rows && !o.Accepted? ==>
                var meta := rows[Ref(BucketShare, slug)].meta;
                o == if Expiry.Lapsed(meta.expires, now) then LapsedShare else WrongPassword
    {
      var r := Ref(BucketShare, slug);
      if !rowOk { return Failed; }
      if r !in rows { return NotFound; }
      if !filesOk { return Failed; }
      var files := SelectFiles(slug);
      var meta := rows[r].meta;
      if Expiry.Lapsed(meta.expires, now) { return LapsedShare; }
      if meta.pwHash != "" && (pw == "" || !bcrypt(meta.pwHash, pw)) { return WrongPassword; }
      return Accepted(r, meta, files);
    }

    /* ---------- removal ---------- */

    /**
     bucket.Service.Delete.  Only the bucket's own secret gets past the comparison; then its row and
     file rows go together, and every listed blob whose deletion succeeds.
     */
    method DeleteBucket(slug: string, secret: string, rowOk: bool, filesOk: bool, blobOk: seq<bool>, deleteOk: bool)
      returns (o: Outcome)
      requires |blobOk| >= |FilesOf(bfiles, slug)|
      modifies this`rows, this`bfiles, this`blobs
      ensures (AsWorld(), o) == BucketDelete(old(AsWorld()), slug, secret, rowOk, filesOk, blobOk, deleteOk)
      ensures var r := Ref(BucketShare, slug); var keys := FileKeys(FilesOf(old(bfiles), slug));
              var allowed := rowOk && filesOk && r in old(rows) && secret == old(rows)[r].meta.secret;
              && (o.Removed? <==> allowed && deleteOk)
              && rows == (if o.Removed? then old(rows) - {r} else old(rows))
              && bfiles == (if o.Removed? then DropBucket(old(bfiles), slug) else old(bfiles))
              && (o.Removed? ==> FilesOf(bfiles, slug) == [])
              && blobs == (if allowed then DropAll(old(blobs), keys, blobOk) else old(blobs))
              && (o == BadSecret <==> rowOk && filesOk && r in old(rows) && !allowed)
    {
      var r := Ref(BucketShare, slug);
      if !rowOk { return Failed; }
      if r !in rows { return NotFound; }
      var meta := rows[r].meta;
      if !filesOk { return Failed; }
      var files := SelectFiles(slug);
      if secret != meta.secret { return BadSecret; }
      DropBlobs(FileKeys(files), blobOk);
      if !deleteOk { return Failed; }
      FilesOfDrop(bfiles, slug, slug);
      rows := rows - {r};
      bfiles := DropBucket(bfiles, slug);
      return Removed(r);
    }

    /** file.Service.Delete: the bytes go first, and if that fails the row stays. */
    method DeleteFile(slug: string, secret: string, rowOk: bool, blobOk: bool, deleteOk: bool) returns (o: Outcome)
      modifies this`rows, this`blobs
      ensures (AsWorld(), o) == FileDelete(old(AsWorld()), slug, secret, rowOk, blobOk, deleteOk)
      ensures var r := Ref(FileShare, slug);
              var allowed := rowOk && r in old(rows) && secret == old(rows)[r].meta.secret;
              && (o.Removed? <==> allowed && blobOk && deleteOk)
              && rows == (if o.Removed? then old(rows) - {r} else old(rows))
              && blobs == (if allowed && blobOk then old(blobs) - {slug} else old(blobs))
              && (o == BadSecret <==> rowOk && r in old(rows) && !allowed)
    {
      var r := Ref(FileShare, slug);
      if !rowOk { return Failed; }
      if r !in rows { return NotFound; }
      if secret != rows[r].meta.secret { return BadSecret; }
      if !blobOk { return Failed; }
      blobs := blobs - {slug};
      if !deleteOk { return Failed; }
      rows := rows - {r};
      return Removed(r);
    }

    /** paste.Service.Delete: there is only the row. */
    method DeletePaste(slug: string, secret: string, rowOk: bool, deleteOk: bool) returns (o: Outcome)
      modifies this`rows
      ensures (AsWorld(), o) == PasteDelete(old(AsWorld()), slug, secret, rowOk, deleteOk)
      ensures var r := Ref(PasteShare, slug);
              && (o.Removed? <==> rowOk && r in old(rows) && secret == old(rows)[r].meta.secret && deleteOk)
              && rows == (if o.Removed? then old(rows) - {r} else old(rows))
    {
      var r := Ref(PasteShare, slug);
      if !rowOk { return Failed; }
      if r !in rows { return NotFound; }
      if secret != rows[r].meta.secret { return BadSecret; }
      if !deleteOk { return Failed; }
      rows := rows - {r};
      return Removed(r);
    }

    /* ---------- the sweep ---------- */

    /** ListExpired's query: `order` is the order in which the database visits the table. */
    method ListExpired(kind: Kind, order: seq<Ref>) returns (expired: seq<Ref>)
      requires Distinct(order) && forall r :: r in rows <==> r in order
      ensures Distinct(expired)
      ensures forall r :: r in expired <==>
                r in rows && r.kind == kind && Expiry.Sweepable(rows[r].meta.expires, now)
    {
      expired := [];
      for i := 0 to |order|
        invariant Distinct(expired)
        invariant forall r :: r in expired <==>
                    r in order[..i] && r in rows && r.kind == kind && Expiry.Sweepable(rows[r].meta.expires, now)
      {
        assert order[i] !in order[..i];
        assert order[..i + 1] == order[..i] + [order[i]];
        if order[i].kind == kind && Expiry.Sweepable(rows[order[i]].meta.expires, now) {
          expired := expired + [order[i]];
        }
      }
      assert order[..|order|] == order;
    }

    /** The per-bucket file queries of ListExpired; a file's own blob needs no query. */
    method ListFiles(expired: seq<Ref>) returns (lists: seq<seq<BFile>>)
      requires forall r :: r in expired ==> r in rows
      ensures |lists| == |expired| && forall i :: 0 <= i < |expired| ==> lists[i] == ListOf(rows, bfiles, expired[i])
    {
      lists := [];
      for i := 0 to |expired|
        invariant |lists| == i && forall j :: 0 <= j < i ==> lists[j] == ListOf(rows, bfiles, expired[j])
      {
        var r := expired[i];
        assert r in expired;
        var files := [];
        if r.kind.BucketShare? {
          files := SelectFiles(r.slug);
        } else if r.kind.FileShare? {
          files := [OwnFile(r.slug, rows[r].meta)];
        }
        lists := lists + [files];
      }
    }

    /** The loop of a sweep: per share its blobs, whose errors are only logged, then its row. */
    method RemoveListed(expired: seq<Ref>, lists: seq<seq<BFile>>, blobOk: seq<seq<bool>>, deleteOk: seq<bool>)
      returns (n: nat)
      requires |expired| == |lists| <= |blobOk| && |expired| <= |deleteOk|
      requires forall i :: 0 <= i < |lists| ==> |lists[i]| <= |blobOk[i]|
      modifies this`rows, this`bfiles, this`blobs
      ensures rows == RowsWithout(old(rows), expired, deleteOk)
      ensures bfiles == FilesWithout(old(bfiles), expired, deleteOk)
      ensures blobs == DropLists(old(blobs), lists, blobOk)
      ensures n == Count(deleteOk, |expired|)
    {
      n := 0;
      for i := 0 to |expired|
        invariant rows == RowsWithout(old(rows), expired[..i], deleteOk)
        invariant bfiles == FilesWithout(old(bfiles), expired[..i], deleteOk)
        invariant blobs == DropLists(old(blobs), lists[..i], blobOk)
        invariant n == Count(deleteOk, i)
      {
        assert expired[..i + 1][..i] == expired[..i] && lists[..i + 1][..i] == lists[..i];
        DropBlobs(FileKeys(lists[i]), blobOk[i]);
        if deleteOk[i] {
          rows := rows - {expired[i]};
          if expired[i].kind.BucketShare? {
            bfiles := DropBucket(bfiles, expired[i].slug);
          }
          n := n + 1;
        }
      }
      assert expired[..|expired|] == expired && lists[..|lists|] == lists;
    }

    /**
     sweepFiles, sweepBuckets and sweepPastes.  A failed listing removes nothing.  Otherwise exactly the
     listed rows whose deletion succeeds go, with their file rows, and the listed blobs whose deletion
     succeeds, and the returned count is the number of rows removed.
     */
    method SweepKind(kind: Kind, order: seq<Ref>, calls: PassCalls) returns (n: nat, l: Listing)
      requires Distinct(order) && forall r :: r in rows <==> r in order
      requires calls.Cover(|order|, |bfiles| + 1)
      modifies this`rows, this`bfiles, this`blobs
      ensures Listed(old(AsWorld()), kind, calls.listOk, l) && calls.Fit(l)
      ensures AsWorld() == AfterPass(old(AsWorld()), calls, l)
      ensures |rows| + n == |old(rows)|
    {
      n, l := 0, Listing([], []);
      if !calls.listOk {
        return;
      }
      var expired := ListExpired(kind, order);
      ListIsNoLonger(expired, order);
      var lists := ListFiles(expired);
      l := Listing(expired, lists);
      assert forall i :: 0 <= i < |expired| ==> expired[i] in expired;
      n := RemoveListed(expired, lists, calls.blobOk, calls.deleteOk);
      RemovedRowsAreCounted(old(rows), expired, calls.deleteOk);
    }

    /** One pass and what the next one finds: the rows that are left, in their order. */
    method Pass(kind: Kind, order: seq<Ref>, calls: PassCalls) returns (n: nat, l: Listing, left: seq<Ref>)
      requires Distinct(order) && forall r :: r in rows <==> r in order
      requires calls.Cover(|order|, |bfiles| + 1)
      modifies this`rows, this`bfiles, this`blobs
      ensures Listed(old(AsWorld()), kind, calls.listOk, l) && calls.Fit(l)
      ensures AsWorld() == AfterPass(old(AsWorld()), calls, l)
      ensures |rows| + n == |old(rows)|
      ensures |bfiles| <= |old(bfiles)| && |left| <= |order|
      ensures Distinct(left) && forall r :: r in rows <==> r in left
    {
      n, l := SweepKind(kind, order, calls);
      FilesWithoutIsNoLonger(old(bfiles), l.refs, calls.deleteOk);
      SweptRows(old(AsWorld()), calls, l);
      left := Remaining(order);
    }

    /**
     sweep: files, then buckets, then pastes, each with its own faults and each listing what the one
     before left; run alone, the three counts add up to the rows removed.
     */
    method Sweep(order: seq<Ref>, fc: PassCalls, bc: PassCalls, pc: PassCalls)
      returns (n: nat, f: Listing, b: Listing, p: Listing)
      requires Distinct(order) && (forall r :: r in rows <==> r in order)
      requires fc.Cover(|order|, |bfiles| + 1) && bc.Cover(|order|, |bfiles| + 1) && pc.Cover(|order|, |bfiles| + 1)
      modifies this`rows, this`bfiles, this`blobs
      ensures |rows| + n == |old(rows)|
      ensures fc.Fit(f) && bc.Fit(b) && pc.Fit(p)
      ensures var w := old(AsWorld()); var w1 := AfterPass(w, fc, f); var w2 := AfterPass(w1, bc, b);
              && Listed(w, FileShare, fc.listOk, f) && Listed(w1, BucketShare, bc.listOk, b)
              && Listed(w2, PasteShare, pc.listOk, p) && AsWorld() == AfterPass(w2, pc, p)
    {
      var nf, nb, np, left;
      nf, f, left := Pass(FileShare, order, fc);
      nb, b, left := Pass(BucketShare, left, bc);
      np, p, left := Pass(PasteShare, left, pc);
      n := nf + nb + np;
    }

    /** The table's own order after rows have gone: what a later query visits. */
    method Remaining(order: seq<Ref>) returns (left: seq<Ref>)
      requires Distinct(order) && forall r :: r in rows ==> r in order
      ensures Distinct(left) && |left| <= |order| && forall r :: r in rows <==> r in left
    {
      left := [];
      for i := 0 to |order|
        invariant Distinct(left) && |left| <= i
        invariant forall r :: r in left <==> r in order[..i] && r in rows
      {
        assert order[i] !in order[..i];
        assert order[..i + 1] == order[..i] + [order[i]];
        if order[i] in rows {
          left := left + [order[i]];
        }
      }
      assert order[..|order|] == order;
    }
  }
}
