/**
 What each call of the services answers, and leaves in the tables and the blob store, when nobody
 interferes: functions of the state it finds and of the fate of the calls it makes.  The methods of
 `Server` and the operations of the machine that run alone are both proved to agree with them.
 */
module Answers {
  import opened Wrappers
  import opened Images
  import opened Shares
  import opened Machine
  import opened Batches
  import Expiry

  /* ---------- creation ---------- */

  /** file.Service.Upload once the request is accepted. */
  function FileCreate(w: World, slug: string, meta: Meta, content: Bytes, writeOk: bool, insertOk: bool, undoOk: bool)
    : (World, Outcome)
  {
    var r := Ref(FileShare, slug);
    if !writeOk then (w, Failed)
    else if insertOk && r !in w.rows then
      (w.(blobs := w.blobs[slug := content], rows := w.rows[r := Row(meta, None)]), Stored(r))
    else (w.(blobs := if undoOk then w.blobs - {slug} else w.blobs[slug := content]), Failed)
  }

  function PasteCreate(w: World, slug: string, meta: Meta, insertOk: bool): (World, Outcome) {
    var r := Ref(PasteShare, slug);
    if insertOk && r !in w.rows then (w.(rows := w.rows[r := Row(meta, None)]), Stored(r)) else (w, Failed)
  }

  /** The fate of the calls a bucket creation makes: per file the drawn key or None, and the rest. */
  datatype CreateCalls = CreateCalls(draws: seq<Option<string>>, insertOk: bool, addOk: seq<bool>, undoOk: seq<bool>) {
    predicate Cover(n: nat) {
      |draws| >= n && |addOk| >= n && |undoOk| >= n
    }
  }

  /** How many members a write loop over n files stores before its first failure. */
  function Prefix(draws: seq<Option<string>>, n: nat): (k: nat)
    requires n <= |draws|
    ensures k <= n && (forall i :: 0 <= i < k ==> draws[i].Some?) && (k < n ==> draws[k].None?)
  {
    if n == 0 then 0
    else
      var k := Prefix(draws, n - 1);
      if k == n - 1 && draws[k].Some? then n else k
  }

  function OkPrefix(ok: seq<bool>, n: nat): (k: nat)
    requires n <= |ok|
    ensures k <= n && (forall i :: 0 <= i < k ==> ok[i]) && (k < n ==> !ok[k])
  {
    if n == 0 then 0
    else
      var k := OkPrefix(ok, n - 1);
      if k == n - 1 && ok[k] then n else k
  }

  function MembersOf(inputs: seq<Input>, draws: seq<Option<string>>, k: nat): (ms: seq<Member>)
    requires k <= |inputs| && k <= |draws| && forall i :: 0 <= i < k ==> draws[i].Some?
    ensures |ms| == k && forall i :: 0 <= i < k ==> ms[i] == Member(draws[i].value, inputs[i])
  {
    seq(k, i requires 0 <= i < k => Member(draws[i].value, inputs[i]))
  }

  /** bucket.Service.Create once the request is accepted: writes, rollback, row, files. */
  function BucketCreate(w: World, slug: string, meta: Meta, inputs: seq<Input>, calls: CreateCalls): (World, Outcome)
    requires calls.Cover(|inputs|)
  {
    var r := Ref(BucketShare, slug);
    var stored := MembersOf(inputs, calls.draws, Prefix(calls.draws, |inputs|));
    var blobs := PutAll(w.blobs, stored);
    if |stored| < |inputs| || !calls.insertOk || r in w.rows then
      (w.(blobs := DropAll(blobs, KeysOf(stored), calls.undoOk)), Failed)
    else
      var k := OkPrefix(calls.addOk, |inputs|);
      (w.(blobs := blobs, rows := w.rows[r := Row(meta, None)],
          bfiles := AddAll(w.bfiles, w.nextId, slug, stored[..k]), nextId := w.nextId + k),
       if k == |inputs| then Stored(r) else Failed)
  }

  lemma CreateUndone(w: World, slug: string, meta: Meta, inputs: seq<Input>, calls: CreateCalls)
    requires calls.Cover(|inputs|) && (Prefix(calls.draws, |inputs|) < |inputs| || !calls.insertOk)
    ensures var stored := MembersOf(inputs, calls.draws, Prefix(calls.draws, |inputs|));
            BucketCreate(w, slug, meta, inputs, calls) ==
              (w.(blobs := DropAll(PutAll(w.blobs, stored), KeysOf(stored), calls.undoOk)), Failed)
  {
  }

  lemma CreateAdds(w: World, slug: string, meta: Meta, inputs: seq<Input>, calls: CreateCalls)
    requires calls.Cover(|inputs|) && Prefix(calls.draws, |inputs|) == |inputs| && calls.insertOk
    requires Ref(BucketShare, slug) !in w.rows
    ensures var stored := MembersOf(inputs, calls.draws, |inputs|); var k := OkPrefix(calls.addOk, |inputs|);
            BucketCreate(w, slug, meta, inputs, calls) ==
              (w.(blobs := PutAll(w.blobs, stored), rows := w.rows[Ref(BucketShare, slug) := Row(meta, None)],
                  bfiles := AddAll(w.bfiles, w.nextId, slug, stored[..k]), nextId := w.nextId + k),
               if k == |inputs| then Stored(Ref(BucketShare, slug)) else Failed)
  {
  }

  /**
   Up to the bucket row a creation is all or nothing: a failing file at any index, or a failing row
   insert, leaves the tables alone, and the blob map too when the rollback's deletions succeed.  After
   it, a failure at the k-th AddFile leaves the row, the k files before it in request order, and every
   blob, and no other bucket's list ever moves.
   */
  lemma CreateIsAllOrNothing(w: World, slug: string, meta: Meta, inputs: seq<Input>, calls: CreateCalls)
    requires calls.Cover(|inputs|) && Ref(BucketShare, slug) !in w.rows && FilesOf(w.bfiles, slug) == []
    requires forall i :: 0 <= i < |inputs| && calls.draws[i].Some? ==> calls.draws[i].value !in w.blobs
    ensures var stored := MembersOf(inputs, calls.draws, Prefix(calls.draws, |inputs|));
            var (w', o) := BucketCreate(w, slug, meta, inputs, calls);
            var k := OkPrefix(calls.addOk, |inputs|);
            if |stored| < |inputs| || !calls.insertOk then
              && o == Failed && w' == w.(blobs := w'.blobs)
              && ((forall i :: 0 <= i < |stored| ==> calls.undoOk[i]) ==> w'.blobs == w.blobs)
            else
              && (o.Stored? <==> k == |inputs|)
              && w'.rows == w.rows[Ref(BucketShare, slug) := Row(meta, None)]
              && FilesOf(w'.bfiles, slug) == AsFiles(stored[..k])
              && (forall c :: c != slug ==> FilesOf(w'.bfiles, c) == FilesOf(w.bfiles, c))
              && forall i :: 0 <= i < |stored| ==> stored[i].key in w'.blobs
  {
    var stored := MembersOf(inputs, calls.draws, Prefix(calls.draws, |inputs|));
    if |stored| < |inputs| || !calls.insertOk {
      if forall i :: 0 <= i < |stored| ==> calls.undoOk[i] { RollbackRestores(w.blobs, stored, calls.undoOk); }
    } else {
      AddAllReads(w.bfiles, w.nextId, slug, stored[..OkPrefix(calls.addOk, |inputs|)]);
      forall i | 0 <= i < |stored| ensures stored[i].key in PutAll(w.blobs, stored) {
        assert stored[i].key == KeysOf(stored)[i];
        PutAllHolds(w.blobs, stored, stored[i].key);
      }
    }
  }

  lemma {:induction false} PrefixStops(draws: seq<Option<string>>, i: nat, n: nat)
    requires i < n <= |draws| && Prefix(draws, i) == i && draws[i].None?
    ensures Prefix(draws, n) == i
  {
    if i + 1 < n { PrefixStops(draws, i, n - 1); }
  }

  lemma {:induction false} OkPrefixStops(ok: seq<bool>, i: nat, n: nat)
    requires i < n <= |ok| && OkPrefix(ok, i) == i && !ok[i]
    ensures OkPrefix(ok, n) == i
  {
    if i + 1 < n { OkPrefixStops(ok, i, n - 1); }
  }

  /* ---------- reading ---------- */

  /** Lookup, file query, expiry, password, consume, in this order. */
  function Admission(w: World, r: Ref, pw: string, rowOk: bool, filesOk: bool, mark: Choice)
    : (World, Result<Meta, Outcome>)
  {
    if !rowOk then (w, Err(Failed))
    else if r !in w.rows then (w, Err(NotFound))
    else if !filesOk then (w, Err(Failed))
    else
      var row := w.rows[r];
      if Expiry.Lapsed(row.meta.expires, w.now) then (w, Err(LapsedShare))
      else if !PasswordOk(w, row.meta, pw) then (w, Err(WrongPassword))
      else if !row.meta.oneUse then (w, Ok(row.meta))
      else if mark.Fail? then (w, Err(Failed))
      else if row.mark.Some? then (w, Err(if mark.FailLate? then Failed else AlreadyConsumed))
      else
        (w.(rows := w.rows[r := Row(row.meta, Some(Expiry.Unix(w.now)))]),
         if mark.FailLate? then Err(Failed) else Ok(row.meta))
  }

  /** What the first n reads deliver: entries up to the first blob that cannot be read. */
  function SentEntries(blobs: map<string, Bytes>, files: seq<BFile>, readOk: seq<bool>, n: nat): (es: seq<Entry>)
    requires n <= |files| <= |readOk|
    ensures |es| <= n
  {
    if n == 0 then []
    else
      var es := SentEntries(blobs, files, readOk, n - 1);
      var f := files[n - 1];
      if |es| == n - 1 && readOk[n - 1] && f.key in blobs then es + [Entry(f.filename, blobs[f.key])] else es
  }

  lemma {:induction false} SentStops(blobs: map<string, Bytes>, files: seq<BFile>, readOk: seq<bool>, i: nat, n: nat)
    requires i < n <= |files| <= |readOk| && |SentEntries(blobs, files, readOk, i)| == i
    requires !readOk[i] || files[i].key !in blobs
    ensures SentEntries(blobs, files, readOk, n) == SentEntries(blobs, files, readOk, i)
  {
    if i + 1 < n { SentStops(blobs, files, readOk, i, n - 1); }
  }

  lemma OneEntry(blobs: map<string, Bytes>, f: BFile, readOk: bool)
    ensures SentEntries(blobs, [f], [readOk], 1) ==
              if readOk && f.key in blobs then [Entry(f.filename, blobs[f.key])] else []
  {
    assert SentEntries(blobs, [f], [readOk], 0) == [];
  }

  function Sending(w: World, r: Ref, goal: Goal, meta: Meta, files: seq<BFile>, readOk: seq<bool>): Outcome
    requires |files| <= |readOk|
  {
    var entries := SentEntries(w.blobs, files, readOk, |files|);
    if |entries| == |files| then Sent(r, goal, meta, files, entries) else Broken(r, goal, meta, files, entries)
  }

  /** The files a content read of share r works with. */
  function FilesFor(w: World, r: Ref, meta: Meta): seq<BFile> {
    if r.kind.BucketShare? then FilesOf(w.bfiles, r.slug) else SingleFile(r, meta)
  }

  /** There is an answer planned for every file a content read of r may touch. */
  predicate CoversFiles(w: World, r: Ref, readOk: seq<bool>) {
    |readOk| >= (if r.kind.BucketShare? then |FilesOf(w.bfiles, r.slug)| else 1)
  }

  /** file.Service.Get, paste.Service.Get and StreamZIP. */
  function ContentGet(w: World, r: Ref, pw: string, rowOk: bool, filesOk: bool, mark: Choice, readOk: seq<bool>)
    : (World, Outcome)
    requires CoversFiles(w, r, readOk)
  {
    var (w', admitted) := Admission(w, r, pw, rowOk, filesOk, mark);
    match admitted
    case Err(o) => (w', o)
    case Ok(meta) => (w', Sending(w', r, Fetch, meta, FilesFor(w, r, meta), readOk))
  }

  /** GetFile: it consumes nothing and changes nothing. */
  function OneFileGet(w: World, slug: string, pw: string, key: string, rowOk: bool, filesOk: bool,
                      readOk: bool): Outcome {
    var r := Ref(BucketShare, slug);
    if !rowOk then Failed
    else if r !in w.rows then NotFound
    else if !filesOk then Failed
    else
      var meta := w.rows[r].meta;
      if Expiry.Lapsed(meta.expires, w.now) then LapsedShare
      else if !PasswordOk(w, meta, pw) then WrongPassword
      else match Find(FilesOf(w.bfiles, slug), key)
        case None => NotFound
        case Some(f) => Sending(w, r, OneFile(key), meta, [f], [readOk])
  }

  /** The two GetMetas: a bucket's asks for the password, a file's does not; nothing is consumed. */
  function MetaGet(w: World, r: Ref, pw: string, rowOk: bool, filesOk: bool): Outcome {
    if !rowOk then Failed
    else if r !in w.rows then NotFound
    else if !filesOk then Failed
    else
      var meta := w.rows[r].meta;
      if Expiry.Lapsed(meta.expires, w.now) then LapsedShare
      else if !r.kind.FileShare? && meta.pwHash != "" && (pw == "" || !w.bcrypt(meta.pwHash, pw)) then WrongPassword
      else Accepted(r, meta, FilesFor(w, r, meta))
  }

  /* ---------- removal ---------- */

  function FileDelete(w: World, slug: string, secret: string, rowOk: bool, blobOk: bool, deleteOk: bool)
    : (World, Outcome)
  {
    var r := Ref(FileShare, slug);
    if !rowOk then (w, Failed)
    else if r !in w.rows then (w, NotFound)
    else if secret != w.rows[r].meta.secret then (w, BadSecret)
    else if !blobOk then (w, Failed)
    else if !deleteOk then (w.(blobs := w.blobs - {slug}), Failed)
    else (w.(blobs := w.blobs - {slug}, rows := w.rows - {r}), Removed(r))
  }

  function PasteDelete(w: World, slug: string, secret: string, rowOk: bool, deleteOk: bool): (World, Outcome) {
    var r := Ref(PasteShare, slug);
    if !rowOk then (w, Failed)
    else if r !in w.rows then (w, NotFound)
    else if secret != w.rows[r].meta.secret then (w, BadSecret)
    else if !deleteOk then (w, Failed)
    else (w.(rows := w.rows - {r}), Removed(r))
  }

  function BucketDelete(w: World, slug: string, secret: string, rowOk: bool, filesOk: bool, blobOk: seq<bool>,
                        deleteOk: bool)
    : (World, Outcome)
    requires |blobOk| >= |FilesOf(w.bfiles, slug)|
  {
    var r := Ref(BucketShare, slug);
    if !rowOk then (w, Failed)
    else if r !in w.rows then (w, NotFound)
    else if !filesOk then (w, Failed)
    else if secret != w.rows[r].meta.secret then (w, BadSecret)
    else
      var blobs := DropAll(w.blobs, FileKeys(FilesOf(w.bfiles, slug)), blobOk);
      if !deleteOk then (w.(blobs := blobs), Failed)
      else (w.(blobs := blobs, rows := w.rows - {r}, bfiles := DropBucket(w.bfiles, slug)), Removed(r))
  }

  /* ---------- the sweep ---------- */

  /** What one ListExpired returns: the rows, and per row the files it names. */
  datatype Listing = Listing(refs: seq<Ref>, lists: seq<seq<BFile>>)

  /** The fate of the calls of one pass: the listing, each listed blob's deletion, each listed row's. */
  datatype PassCalls = PassCalls(listOk: bool, blobOk: seq<seq<bool>>, deleteOk: seq<bool>) {
    predicate Cover(rows: nat, files: nat) {
      |blobOk| >= rows && |deleteOk| >= rows && forall i :: 0 <= i < |blobOk| ==> |blobOk[i]| >= files
    }

    predicate Fit(l: Listing) {
      && |l.lists| == |l.refs| <= |deleteOk| && |l.lists| <= |blobOk|
      && forall i :: 0 <= i < |l.lists| ==> |l.lists[i]| <= |blobOk[i]|
    }
  }

  /** Exactly the rows of the kind that are past expiry, with their files; nothing if the query failed. */
  ghost predicate Listed(w: World, kind: Kind, ok: bool, l: Listing) {
    && Distinct(l.refs)
    && (forall r :: r in l.refs <==>
          ok && r in w.rows && r.kind == kind && Expiry.Sweepable(w.rows[r].meta.expires, w.now))
    && |l.lists| == |l.refs|
    && forall i :: 0 <= i < |l.refs| ==> l.refs[i] in w.rows && l.lists[i] == ListOf(w.rows, w.bfiles, l.refs[i])
  }

  /** What one pass leaves: every listed blob and row goes whose own deletion succeeds. */
  function AfterPass(w: World, calls: PassCalls, l: Listing): World
    requires calls.Fit(l)
  {
    w.(rows := RowsWithout(w.rows, l.refs, calls.deleteOk), bfiles := FilesWithout(w.bfiles, l.refs, calls.deleteOk),
       blobs := DropLists(w.blobs, l.lists, calls.blobOk))
  }

  /** The rows one pass leaves: unchanged, and exactly the unlisted if no deletion fails. */
  lemma SweptRows(w: World, calls: PassCalls, l: Listing)
    requires calls.Fit(l)
    ensures var w' := AfterPass(w, calls, l);
            && (forall r :: r in w'.rows ==> r in w.rows && w'.rows[r] == w.rows[r])
            && ((forall i :: 0 <= i < |l.refs| ==> calls.deleteOk[i]) ==>
                  forall r :: r in w'.rows <==> r in w.rows && r !in l.refs)
  {
    var w' := AfterPass(w, calls, l);
    forall r ensures (r in w'.rows ==> r in w.rows && w'.rows[r] == w.rows[r])
             ensures (forall i :: 0 <= i < |l.refs| ==> calls.deleteOk[i]) ==>
                       (r in w'.rows <==> r in w.rows && r !in l.refs)
    {
      RowsWithoutHolds(w.rows, l.refs, calls.deleteOk, r);
    }
  }

  /** Three passes whose row deletions succeed take every expired row and no other. */
  lemma AllSwept(w: World, fc: PassCalls, bc: PassCalls, pc: PassCalls, f: Listing, b: Listing, p: Listing)
    requires fc.Fit(f) && bc.Fit(b) && pc.Fit(p)
    requires forall i :: 0 <= i < |f.refs| ==> fc.deleteOk[i]
    requires forall i :: 0 <= i < |b.refs| ==> bc.deleteOk[i]
    requires forall i :: 0 <= i < |p.refs| ==> pc.deleteOk[i]
    requires Listed(w, FileShare, true, f)
    requires var w1 := AfterPass(w, fc, f);
             Listed(w1, BucketShare, true, b) && Listed(AfterPass(w1, bc, b), PasteShare, true, p)
    ensures var after := AfterPass(AfterPass(AfterPass(w, fc, f), bc, b), pc, p);
            forall r :: r in after.rows <==> r in w.rows && !Expiry.Sweepable(w.rows[r].meta.expires, w.now)
  {
    var w1 := AfterPass(w, fc, f);
    var w2 := AfterPass(w1, bc, b);
    SweptRows(w, fc, f);
    SweptRows(w1, bc, b);
    SweptRows(w2, pc, p);
  }
}
