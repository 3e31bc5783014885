/** Every step of every operation keeps the world invariant, its own invariant, and the guarantee. */
module Steps {
  import opened Images
  import opened Shares
  import opened Machine
  import opened Invariant
  import opened Stability
  import opened Effects
  import Expiry

  /** What a step establishes. */
  ghost predicate Good(w: World, id: nat, next: (World, Op)) {
    WorldInv(next.0) && Guarantee(w, next.0, id) && OpInv(next.0, id, next.1)
  }

  /** An outcome that promises nothing about the world. */
  predicate Plain(op: Op) {
    op.Done? && !op.outcome.Stored? && !op.outcome.Accepted? && !op.outcome.Sent? && !op.outcome.Broken? &&
      !op.outcome.Swept?
  }

  ghost predicate CreatesOn(w: World, id: nat, op: Op) {
    Plain(op) || (op.Done? && op.outcome.Stored? && DoneInv(w, id, op.outcome)) || (Creates(op) && CreateInv(w, id, op))
  }

  ghost predicate ReadsOn(w: World, id: nat, op: Op) {
    Plain(op) || (op.Done? && DoneInv(w, id, op.outcome)) || (Reads(op) && ReadInv(w, id, op))
  }

  ghost predicate RemovesOn(w: World, op: Op) {
    || Plain(op)
    || (op.Done? && op.outcome.Swept? &&
      SweepFits(w, BySweep(PasteShare, w.now, op.outcome.listed, op.outcome.keys), []))
    || (Removes(op) && RemoveInv(w, op))
  }

  /* ---------- creation ---------- */

  lemma BeginUploadIsGood(w: World, id: nat, req: Request)
    requires WorldInv(w) && Possible(w, req) && req.Upload?
    ensures var next := Begin(w, id, req);
            WorldInv(next.0) && Guarantee(w, next.0, id) && CreatesOn(next.0, id, next.1)
  {
    NothingHappens(w, id);
    var slug, body, peek := req.slug, req.body, req.peek;
    SignatureOfPrefix(Decide(req.sniffed, body[..peek]), body[..peek], body);
    assert Ref(FileShare, slug) in w.born ==> BornFits(w, Ref(FileShare, slug));
    if req.expiry in Expiry.PRESETS { NameDrawn(w, id, slug, Begin(w, id, req).0.tickets[slug].use); }
  }

  lemma BeginPasteIsGood(w: World, id: nat, req: Request)
    requires WorldInv(w) && Possible(w, req) && req.NewPaste?
    ensures var next := Begin(w, id, req);
            WorldInv(next.0) && Guarantee(w, next.0, id) && CreatesOn(next.0, id, next.1)
  {
    NothingHappens(w, id);
    assert Ref(PasteShare, req.slug) in w.born ==> BornFits(w, Ref(PasteShare, req.slug));
    if req.expiry in Expiry.PRESETS && req.text != "" {
      NameDrawn(w, id, req.slug, Begin(w, id, req).0.tickets[req.slug].use);
    }
  }

  lemma BeginBucketIsGood(w: World, id: nat, req: Request)
    requires WorldInv(w) && Possible(w, req) && req.NewBucket?
    ensures var next := Begin(w, id, req);
            WorldInv(next.0) && Guarantee(w, next.0, id) && CreatesOn(next.0, id, next.1)
  {
    if req.expiry !in Expiry.PRESETS { NothingHappens(w, id); }
    assert Ref(BucketShare, req.slug) in w.born ==> BornFits(w, Ref(BucketShare, req.slug));
    if req.expiry in Expiry.PRESETS { NameDrawn(w, id, req.slug, Begin(w, id, req).0.tickets[req.slug].use); }
  }

  lemma BeginIsGood(w: World, id: nat, req: Request)
    requires WorldInv(w) && Possible(w, req)
    ensures Good(w, id, Begin(w, id, req))
  {
    var next := Begin(w, id, req);
    if req.Upload? {
      BeginUploadIsGood(w, id, req);
    } else if req.NewPaste? {
      BeginPasteIsGood(w, id, req);
    } else if req.NewBucket? {
      BeginBucketIsGood(w, id, req);
    } else {
      NothingHappens(w, id);
      assert ReadsOn(w, id, next.1) || RemovesOn(w, next.1);
    }
    OnIsInv(next.0, id, next.1);
  }

  lemma UpWriteIsGood(w: World, id: nat, slug: string, meta: Meta, content: Bytes)
    requires WorldInv(w) && UpWriteInv(w, id, slug, meta, content)
    ensures var w' := w.(blobs := w.blobs[slug := content]);
            WorldInv(w') && Guarantee(w, w', id) && UpInsertInv(w', id, slug, meta)
  {
    BlobWritten(w, id, slug, meta, content);
  }

  lemma UploadStepIsGood(w: World, id: nat, op: Op, c: Choice)
    requires WorldInv(w) && (op.UpWrite? || op.UpInsert? || op.PasteInsert?) && CreateInv(w, id, op)
    ensures var next := UploadStep(w, op, c);
            WorldInv(next.0) && Guarantee(w, next.0, id) && CreatesOn(next.0, id, next.1)
  {
    match op
    case UpWrite(slug, meta, content) => WriteUploadIsGood(w, id, slug, meta, content, c);
    case UpInsert(slug, meta) => InsertUploadIsGood(w, id, slug, meta, c);
    case PasteInsert(slug, meta) => InsertPasteIsGood(w, id, slug, meta, c);
  }

  lemma WriteUploadIsGood(w: World, id: nat, slug: string, meta: Meta, content: Bytes, c: Choice)
    requires WorldInv(w) && UpWriteInv(w, id, slug, meta, content)
    ensures var next := UploadStep(w, UpWrite(slug, meta, content), c);
            WorldInv(next.0) && Guarantee(w, next.0, id) && CreatesOn(next.0, id, next.1)
  {
    if c.Succeed? { UpWriteIsGood(w, id, slug, meta, content); } else { NothingHappens(w, id); }
  }

  lemma InsertUploadIsGood(w: World, id: nat, slug: string, meta: Meta, c: Choice)
    requires WorldInv(w) && UpInsertInv(w, id, slug, meta)
    ensures var next := UploadStep(w, UpInsert(slug, meta), c);
            WorldInv(next.0) && Guarantee(w, next.0, id) && CreatesOn(next.0, id, next.1)
  {
    var r := Ref(FileShare, slug);
    if c.Succeed? && r !in w.rows { RowInserted(w, id, r, meta); } else { NothingHappens(w, id); }
  }

  lemma InsertPasteIsGood(w: World, id: nat, slug: string, meta: Meta, c: Choice)
    requires WorldInv(w) && PasteInsertInv(w, id, slug, meta)
    ensures var next := UploadStep(w, PasteInsert(slug, meta), c);
            WorldInv(next.0) && Guarantee(w, next.0, id) && CreatesOn(next.0, id, next.1)
  {
    var r := Ref(PasteShare, slug);
    if c.Succeed? && r !in w.rows { RowInserted(w, id, r, meta); } else { NothingHappens(w, id); }
  }

  lemma UndoStepIsGood(w: World, id: nat, keys: seq<string>, c: Choice)
    requires WorldInv(w) && UndoInv(w, id, keys)
    ensures var next := UndoStep(w, keys, c);
            WorldInv(next.0) && Guarantee(w, next.0, id) && CreatesOn(next.0, id, next.1)
  {
    if keys == [] {
      NothingHappens(w, id);
    } else {
      assert UndoFits(w, id, keys[0]);
      BlobDropped(w, id, keys[0]);
      FaultNoted(w, StoreDeleteFailed(keys[0]), id);
      UndoGoesOn(w, id, keys, DropBlob(w, keys[0]));
      UndoGoesOn(w, id, keys, Blame(w, StoreDeleteFailed(keys[0])));
    }
  }

  lemma UndoGoesOn(w: World, id: nat, keys: seq<string>, w': World)
    requires UndoInv(w, id, keys) && keys != []
    requires w' == w.(blobs := w'.blobs, faults := w'.faults)
    ensures CreatesOn(w', id, UndoNext(keys[1..]))
  {
    forall i | 0 <= i < |keys[1..]| ensures UndoFits(w', id, keys[1..][i]) {
      assert UndoFits(w, id, keys[i + 1]);
    }
  }

  lemma RollbackFits(w: World, id: nat, slug: string, meta: Meta, inputs: seq<Input>, stored: seq<Member>)
    requires CrWriteInv(w, id, slug, meta, inputs, stored)
    ensures UndoInv(w, id, KeysOf(stored))
  {
  }

  lemma DrawIsGood(w: World, id: nat, slug: string, meta: Meta, inputs: seq<Input>, stored: seq<Member>, key: string)
    requires WorldInv(w) && CrWriteInv(w, id, slug, meta, inputs, stored) && |stored| < |inputs| && FreshSlug(w, key)
    ensures var w' := Issue(w, id, key, ForMember(slug, inputs[|stored|].content)).(
                        blobs := w.blobs[key := inputs[|stored|].content]);
            && WorldInv(w') && Guarantee(w, w', id)
            && CrWriteInv(w', id, slug, meta, inputs, stored + [Member(key, inputs[|stored|])])
  {
    var content := inputs[|stored|].content;
    MemberWritten(w, id, slug, key, content);
    DrawnFits(w, id, slug, meta, inputs, stored, key);
  }

  lemma DrawnFits(w: World, id: nat, slug: string, meta: Meta, inputs: seq<Input>, stored: seq<Member>, key: string)
    requires CrWriteInv(w, id, slug, meta, inputs, stored) && |stored| < |inputs| && FreshSlug(w, key)
    ensures var w' := Issue(w, id, key, ForMember(slug, inputs[|stored|].content)).(
                        blobs := w.blobs[key := inputs[|stored|].content]);
            CrWriteInv(w', id, slug, meta, inputs, stored + [Member(key, inputs[|stored|])])
  {
    var content := inputs[|stored|].content;
    var w' := Issue(w, id, key, ForMember(slug, content)).(blobs := w.blobs[key := content]);
    assert MembersFit(w', id, slug, inputs, stored + [Member(key, inputs[|stored|])]);
  }

  lemma BucketOpens(w: World, id: nat, slug: string, meta: Meta, inputs: seq<Input>, stored: seq<Member>)
    requires CrWriteInv(w, id, slug, meta, inputs, stored) && slug !in w.ended
    ensures CrAddInv(WithBucket(w, slug, meta, stored), id, slug, stored, 0)
  {
  }

  lemma WriteStepIsGood(w: World, id: nat, slug: string, meta: Meta, inputs: seq<Input>, stored: seq<Member>, c: Choice)
    requires WorldInv(w) && CrWriteInv(w, id, slug, meta, inputs, stored) && |stored| < |inputs|
    ensures var next := CreateStep(w, id, slug, meta, inputs, stored, c);
            WorldInv(next.0) && Guarantee(w, next.0, id) && CreatesOn(next.0, id, next.1)
  {
    if c.Draw? && FreshSlug(w, c.key) {
      DrawIsGood(w, id, slug, meta, inputs, stored, c.key);
    } else {
      NothingHappens(w, id);
      if !c.Draw? { RollbackStarts(w, id, slug, meta, inputs, stored); }
    }
  }

  lemma RollbackStarts(w: World, id: nat, slug: string, meta: Meta, inputs: seq<Input>, stored: seq<Member>)
    requires CrWriteInv(w, id, slug, meta, inputs, stored)
    ensures CreatesOn(w, id, UndoNext(KeysOf(stored)))
  {
    RollbackFits(w, id, slug, meta, inputs, stored);
  }

  lemma InsertStepIsGood(w: World, id: nat, slug: string, meta: Meta, inputs: seq<Input>, stored: seq<Member>,
                         c: Choice)
    requires WorldInv(w) && CrWriteInv(w, id, slug, meta, inputs, stored) && |stored| == |inputs|
    ensures var next := CreateStep(w, id, slug, meta, inputs, stored, c);
            WorldInv(next.0) && Guarantee(w, next.0, id) && CreatesOn(next.0, id, next.1)
  {
    if c.Succeed? && Ref(BucketShare, slug) !in w.rows {
      BucketInserted(w, id, slug, meta, inputs, stored);
      BucketOpens(w, id, slug, meta, inputs, stored);
    } else {
      NothingHappens(w, id);
      RollbackFits(w, id, slug, meta, inputs, stored);
    }
  }

  lemma CreateStepIsGood(w: World, id: nat, slug: string, meta: Meta, inputs: seq<Input>, stored: seq<Member>,
                         c: Choice)
    requires WorldInv(w) && CrWriteInv(w, id, slug, meta, inputs, stored)
    ensures var next := CreateStep(w, id, slug, meta, inputs, stored, c);
            WorldInv(next.0) && Guarantee(w, next.0, id) && CreatesOn(next.0, id, next.1)
  {
    if |stored| < |inputs| {
      WriteStepIsGood(w, id, slug, meta, inputs, stored, c);
    } else {
      InsertStepIsGood(w, id, slug, meta, inputs, stored, c);
    }
  }

  lemma AddFailureIsGood(w: World, id: nat, slug: string, stored: seq<Member>, next: nat)
    requires WorldInv(w) && CrAddInv(w, id, slug, stored, next)
    ensures var w' := Blame(w, AddFileFailed(slug)).(ended := w.ended + {slug}); WorldInv(w') && Guarantee(w, w', id)
  {
    FaultNoted(w, AddFileFailed(slug), id);
    var w1 := Blame(w, AddFileFailed(slug));
    CreateEnded(w1, id, slug, stored, next, w1.completed);
    var w' := w1.(ended := w1.ended + {slug}, completed := w1.completed);
    assert w' == w1.(ended := w.ended + {slug});
  }

  lemma AddStepIsGood(w: World, id: nat, slug: string, stored: seq<Member>, next: nat, c: Choice)
    requires WorldInv(w) && CrAddInv(w, id, slug, stored, next)
    ensures var on := AddStep(w, slug, stored, next, c);
            WorldInv(on.0) && Guarantee(w, on.0, id) && CreatesOn(on.0, id, on.1)
  {
    if next == |stored| {
      CreateEnded(w, id, slug, stored, next, w.completed + {slug});
    } else if c.Succeed? && Ref(BucketShare, slug) in w.rows {
      FileAdded(w, id, slug, stored, next);
    } else {
      AddFailureIsGood(w, id, slug, stored, next);
    }
  }

  /* ---------- reading ---------- */

  lemma FindFinds(files: seq<BFile>, key: string)
    ensures match Find(files, key)
            case None => !HasKey(files, key)
            case Some(f) => f in files && f.key == key
  {
    if files != [] && files[0].key != key {
      FindFinds(files[1..], key);
      assert files == [files[0]] + files[1..];
      if HasKey(files, key) {
        var i :| 0 <= i < |files| && files[i].key == key;
        assert files[1..][i - 1].key == key;
      }
    }
  }

  lemma LookupIsGood(w: World, id: nat, r: Ref, pw: string, goal: Goal, c: Choice)
    requires RowsOk(w)
    ensures ReadsOn(w, id, LookupStep(w, r, pw, goal, c))
  {
  }

  lemma ListingIsPrefix(w: World, r: Ref)
    requires TableOk(w) && r.kind.BucketShare?
    ensures Lists(w, r, FilesOf(w.bfiles, r.slug))
    ensures r in w.rows ==> FilesOf(w.bfiles, r.slug) == Owned(w, r)
  {
    assert ListOk(w, r.slug);
  }

  lemma CheckIsGood(w: World, id: nat, r: Ref, pw: string, goal: Goal, meta: Meta, files: seq<BFile>)
    requires Snapshot(w, r, meta) && Lists(w, r, files)
    ensures ReadsOn(w, id, Check(w, r, pw, goal, meta, files))
  {
    if goal.OneFile? {
      FindFinds(files, goal.key);
      assert forall f :: f in files ==> f in Owned(w, r);
    }
  }

  lemma MarkStepIsGood(w: World, id: nat, r: Ref, pw: string, meta: Meta, files: seq<BFile>, at: int, c: Choice)
    requires WorldInv(w) && RdMarkInv(w, r, pw, meta, files, at)
    ensures var next := MarkStep(w, id, r, pw, meta, files, at, c);
            WorldInv(next.0) && Guarantee(w, next.0, id) && ReadsOn(next.0, id, next.1)
  {
    NothingHappens(w, id);
    if !c.Fail? && r in w.rows && w.rows[r].mark.None? {
      ShareMarked(w, id, r, pw, meta, files, at);
      MarkServes(w, id, r, pw, meta, files, at);
    }
  }

  lemma MarkServes(w: World, id: nat, r: Ref, pw: string, meta: Meta, files: seq<BFile>, at: int)
    requires RdMarkInv(w, r, pw, meta, files, at) && r in w.rows
    ensures Serving(Mark(w, r, Pass(id, pw, at)), id, r, Fetch, meta, files, [])
  {
    assert Owned(Mark(w, r, Pass(id, pw, at)), r) == Owned(w, r);
  }

  lemma SendIsGood(w: World, id: nat, r: Ref, goal: Goal, meta: Meta, files: seq<BFile>, entries: seq<Entry>, c: Choice)
    requires BlobsOk(w) && Serving(w, id, r, goal, meta, files, entries)
    ensures ReadsOn(w, id, SendStep(w, r, goal, meta, files, entries, c))
  {
    var n := |entries|;
    if n < |files| && c.Succeed? && files[n].key in w.blobs {
      var more := entries + [Entry(files[n].filename, w.blobs[files[n].key])];
      assert Delivers(w, files, more);
    }
  }

  lemma ReadStepIsGood(w: World, id: nat, op: Op, c: Choice)
    requires WorldInv(w) && Reads(op) && ReadInv(w, id, op)
    ensures var next := ReadStep(w, id, op, c);
            WorldInv(next.0) && Guarantee(w, next.0, id) && ReadsOn(next.0, id, next.1)
  {
    NothingHappens(w, id);
    match op
    case RdRow(r, pw, goal) => LookupIsGood(w, id, r, pw, goal, c);
    case RdFiles(r, _, _, _) => ListingIsPrefix(w, r);
    case RdCheck(r, pw, goal, meta, files) => CheckIsGood(w, id, r, pw, goal, meta, files);
    case RdMark(r, pw, meta, files, at) => MarkStepIsGood(w, id, r, pw, meta, files, at, c);
    case RdSend(r, goal, meta, files, entries) => SendIsGood(w, id, r, goal, meta, files, entries, c);
  }

  /* ---------- removal ---------- */

  lemma ListingIsNoted(w: World, id: nat, r: Ref)
    requires WorldInv(w)
    ensures WorldInv(NoteListing(w, r)) && Guarantee(w, NoteListing(w, r), id)
  {
    NothingHappens(w, id);
    FaultNoted(w, ListedMidCreate(r.slug), id);
  }

  /** A fresh listing is complete unless the bucket is still being created or already gone. */
  lemma ListingItem(w: World, why: Why, r: Ref, meta: Meta, files: seq<BFile>)
    requires TableOk(w) && Snapshot(w, r, meta) && Authorized(w, why, r, meta)
    requires files == if r.kind.BucketShare? then FilesOf(w.bfiles, r.slug) else Owned(w, r)
    ensures ItemFits(NoteListing(w, r), why, Item(r, meta, files, 0))
  {
    if r.kind.BucketShare? { ListingIsPrefix(w, r); }
    assert Owned(NoteListing(w, r), r) == Owned(w, r);
  }

  lemma ListingFits(w: World, id: nat, why: Why, r: Ref, meta: Meta, files: seq<BFile>)
    requires WorldInv(w) && Snapshot(w, r, meta) && Authorized(w, why, r, meta)
    requires files == if r.kind.BucketShare? then FilesOf(w.bfiles, r.slug) else Owned(w, r)
    ensures WorldInv(NoteListing(w, r)) && Guarantee(w, NoteListing(w, r), id)
    ensures ItemFits(NoteListing(w, r), why, Item(r, meta, files, 0))
  {
    ListingIsNoted(w, id, r);
    ListingItem(w, why, r, meta, files);
  }

  lemma AuthorizeIsGood(w: World, id: nat, r: Ref, secret: string, meta: Meta, files: seq<BFile>)
    requires WorldInv(w) && Snapshot(w, r, meta)
    requires files == if r.kind.BucketShare? then FilesOf(w.bfiles, r.slug) else Owned(w, r)
    ensures var next := Authorize(w, r, secret, meta, files);
            WorldInv(next.0) && Guarantee(w, next.0, id) && RemovesOn(next.0, next.1)
  {
    NothingHappens(w, id);
    if secret == meta.secret { ListingFits(w, id, BySecret(secret), r, meta, files); }
  }

  lemma DeleteStepIsGood(w: World, id: nat, op: Op, c: Choice)
    requires WorldInv(w) && (op.DlRow? || op.DlFiles?) && RemoveInv(w, op)
    ensures var next := DeleteStep(w, op, c);
            WorldInv(next.0) && Guarantee(w, next.0, id) && RemovesOn(next.0, next.1)
  {
    NothingHappens(w, id);
    if c.Succeed? {
      match op
      case DlRow(r, secret) =>
        if r in w.rows && !r.kind.BucketShare? {
          AuthorizeIsGood(w, id, r, secret, w.rows[r].meta, SingleFile(r, w.rows[r].meta));
        }
      case DlFiles(r, secret, meta) => AuthorizeIsGood(w, id, r, secret, meta, FilesOf(w.bfiles, r.slug));
    }
  }

  lemma NextSweepFits(w: World, why: Why)
    requires SweepFits(w, why, [])
    ensures RemovesOn(w, NextSweep(why))
  {
  }

  lemma ListedKeysFit(w: World, why: Why, items: seq<Item>, k: string)
    requires WorldInv(w) && (forall i :: 0 <= i < |items| ==> ItemFits(w, why, items[i]) && items[i].pos == 0)
    requires exists i, j :: 0 <= i < |items| && 0 <= j < |items[i].files| && items[i].files[j].key == k
    ensures Bound(w, k) && Awaits(items, k)
  {
    var i, j :| 0 <= i < |items| && 0 <= j < |items[i].files| && items[i].files[j].key == k;
    assert ItemFits(w, why, items[i]);
    OwnedIsBound(w, items[i].ref, j);
  }

  lemma ListedRowsFit(w: World, why: Why, items: seq<Item>, r: Ref)
    requires forall i :: 0 <= i < |items| ==> ItemFits(w, why, items[i])
    requires exists i :: 0 <= i < |items| && items[i].ref == r
    ensures r in w.born && AwaitsRow(items, r)
  {
    var i :| 0 <= i < |items| && items[i].ref == r;
    assert ItemFits(w, why, items[i]);
  }

  lemma NotedFits(w: World, why: Why, items: seq<Item>)
    requires WorldInv(w) && SweepFits(w, why, [])
    requires forall i :: 0 <= i < |items| ==> ItemFits(w, why, items[i]) && items[i].pos == 0
    ensures var refs := set i | 0 <= i < |items| :: items[i].ref;
            var keys := set i, j | 0 <= i < |items| && 0 <= j < |items[i].files| :: items[i].files[j].key;
            SweepFits(w, why.(listed := why.listed + refs, keys := why.keys + keys), items)
  {
    var refs := set i | 0 <= i < |items| :: items[i].ref;
    var keys := set i, j | 0 <= i < |items| && 0 <= j < |items[i].files| :: items[i].files[j].key;
    forall k | k in keys ensures Bound(w, k) && Awaits(items, k) { ListedKeysFit(w, why, items, k); }
    forall r | r in refs ensures r in w.born && AwaitsRow(items, r) { ListedRowsFit(w, why, items, r); }
  }

  /** Entering the removal loop: everything listed so far is now awaiting its turn. */
  lemma ProceedFits(w: World, why: Why, items: seq<Item>)
    requires WorldInv(w) && SweepFits(w, why, [])
    requires forall i :: 0 <= i < |items| ==> ItemFits(w, why, items[i]) && items[i].pos == 0
    ensures RemovesOn(w, Proceed(why, items))
  {
    var refs := set i | 0 <= i < |items| :: items[i].ref;
    var keys := set i, j | 0 <= i < |items| && 0 <= j < |items[i].files| :: items[i].files[j].key;
    var why' := why.(listed := why.listed + refs, keys := why.keys + keys);
    NotedFits(w, why, items);
    assert SweepFits(w, why', items);
    forall i | 0 <= i < |items| ensures ItemFits(w, why', items[i]) { assert ItemFits(w, why, items[i]); }
    if items == [] { NextSweepFits(w, why'); }
  }

  lemma SweepListIsGood(w: World, why: Why, c: Choice)
    requires WorldInv(w) && SweepFits(w, why, [])
    ensures RemovesOn(w, SweepListStep(w, why, c))
  {
    if c.Order? && ListsExpired(w, why.kind, c.refs) {
      var why' := why.(at := w.now);
      var items := ItemsFor(w, c.refs);
      assert SweepFits(w, why', []);
      if !why.kind.BucketShare? {
        forall i | 0 <= i < |items| ensures ItemFits(w, why', items[i]) {
          ListingFits(w, 0, why', c.refs[i], items[i].meta, items[i].files);
        }
        ProceedFits(w, why', items);
      }
    }
  }

  lemma SweepFilesMoves(w: World, id: nat, why: Why, todo: seq<Item>, items: seq<Item>)
    requires WorldInv(w) && SwFilesInv(w, why, todo, items) && todo != []
    ensures var w' := NoteListing(w, todo[0].ref);
            var it := todo[0].(files := FilesOf(w.bfiles, todo[0].ref.slug));
            WorldInv(w') && Guarantee(w, w', id) && SwFilesInv(w', why, todo[1..], items + [it])
  {
    var it := todo[0];
    var files := FilesOf(w.bfiles, it.ref.slug);
    ListingFits(w, id, why, it.ref, it.meta, files);
    SwFilesStable(w, NoteListing(w, it.ref), id, why, todo, items);
    assert it.(files := files) == Item(it.ref, it.meta, files, 0);
  }

  lemma SweepFilesIsGood(w: World, id: nat, why: Why, todo: seq<Item>, items: seq<Item>, c: Choice)
    requires WorldInv(w) && SwFilesInv(w, why, todo, items)
    ensures var next := SweepFilesStep(w, why, todo, items, c);
            WorldInv(next.0) && Guarantee(w, next.0, id) && RemovesOn(next.0, next.1)
  {
    NothingHappens(w, id);
    if todo == [] {
      ProceedFits(w, why, items);
    } else if c.Succeed? {
      SweepFilesMoves(w, id, why, todo, items);
    } else {
      NextSweepFits(w, why);
    }
  }

  lemma PurgeBlobIsGood(w: World, id: nat, why: Why, items: seq<Item>, c: Choice)
    requires WorldInv(w) && PurgeInv(w, why, items) && items[0].pos < |items[0].files|
    ensures var next := PurgeBlob(w, why, items, c);
            WorldInv(next.0) && Guarantee(w, next.0, id) && RemovesOn(next.0, next.1)
  {
    NothingHappens(w, id);
    var it := items[0];
    var k := it.files[it.pos].key;
    OwnedIsBound(w, it.ref, it.pos);
    var w' := PurgeBlob(w, why, items, c).0;
    if c.Succeed? { BlobDropped(w, id, k); } else { FaultNoted(w, StoreDeleteFailed(k), id); }
    if c.Succeed? || why.BySweep? || !it.ref.kind.FileShare? {
      PurgeStable(w, w', id, why, items);
      PurgeMoves(w', why, items);
    }
  }

  function Moved(items: seq<Item>): seq<Item>
    requires items != []
  {
    [items[0].(pos := items[0].pos + 1)] + items[1..]
  }

  lemma ItemMoves(w: World, why: Why, it: Item)
    requires ItemFits(w, why, it) && it.pos < |it.files| && Cleared(w, it.files[it.pos].key)
    ensures ItemFits(w, why, it.(pos := it.pos + 1))
  {
  }

  lemma WaitingMoves(items: seq<Item>, k: string)
    requires items != [] && items[0].pos < |items[0].files| && items[0].files[items[0].pos].key != k
    requires Awaits(items, k)
    ensures Awaits(Moved(items), k)
  {
    var i, j :| 0 <= i < |items| && items[i].pos <= j < |items[i].files| && items[i].files[j].key == k;
    assert Moved(items)[i].files[j].key == k;
  }

  lemma SweepMoves(w: World, why: Why, items: seq<Item>)
    requires SweepFits(w, why, items) && items != [] && items[0].pos < |items[0].files|
    requires Cleared(w, items[0].files[items[0].pos].key)
    ensures SweepFits(w, why, Moved(items))
  {
    forall r | r in why.listed && AwaitsRow(items, r) ensures AwaitsRow(Moved(items), r) {
      var i :| 0 <= i < |items| && items[i].ref == r;
      assert Moved(items)[i].ref == r;
    }
    forall k | k in why.keys && !Cleared(w, k) ensures Awaits(Moved(items), k) {
      WaitingMoves(items, k);
    }
  }

  /** Handling one more blob of the first item. */
  lemma PurgeMoves(w: World, why: Why, items: seq<Item>)
    requires PurgeInv(w, why, items) && items[0].pos < |items[0].files|
    requires Cleared(w, items[0].files[items[0].pos].key)
    ensures PurgeInv(w, why, Moved(items))
  {
    ItemMoves(w, why, items[0]);
    forall i | 0 <= i < |items| ensures ItemFits(w, why, Moved(items)[i]) {
      assert ItemFits(w, why, items[i]);
    }
    if why.BySweep? { SweepMoves(w, why, items); }
  }

  lemma PurgeRowIsGood(w: World, id: nat, why: Why, items: seq<Item>, c: Choice)
    requires WorldInv(w) && PurgeInv(w, why, items) && items[0].pos == |items[0].files|
    ensures var next := PurgeRow(w, why, items, c);
            WorldInv(next.0) && Guarantee(w, next.0, id) && RemovesOn(next.0, next.1)
  {
    var r := items[0].ref;
    if c.Succeed? { RowDeleted(w, id, r); } else { FaultNoted(w, RowDeleteFailed(r), id); }
    var w' := PurgeRow(w, why, items, c).0;
    if why.BySweep? {
      PurgeStable(w, w', id, why, items);
      PurgeAdvances(w', why, items);
    }
  }

  /** A sweep is done with its first item. */
  lemma PurgeAdvances(w: World, why: Why, items: seq<Item>)
    requires PurgeInv(w, why, items) && why.BySweep? && items[0].pos == |items[0].files|
    requires items[0].ref !in w.rows || RowDeleteFailed(items[0].ref) in w.faults
    ensures RemovesOn(w, PurgeNext(why, items[1..]))
  {
    var on := items[1..];
    assert ItemFits(w, why, items[0]);
    forall i | 0 <= i < |on| ensures ItemFits(w, why, on[i]) { assert ItemFits(w, why, items[i + 1]); }
    forall r | r in why.listed && r in w.rows && RowDeleteFailed(r) !in w.faults ensures AwaitsRow(on, r) {
      var i :| 0 <= i < |items| && items[i].ref == r;
      assert on[i - 1].ref == r;
    }
    forall k | k in why.keys && !Cleared(w, k) ensures Awaits(on, k) {
      var i, j :| 0 <= i < |items| && items[i].pos <= j < |items[i].files| && items[i].files[j].key == k;
      assert on[i - 1].files[j].key == k;
    }
    assert SweepFits(w, why, on);
    if on == [] { NextSweepFits(w, why); }
  }

  lemma PurgeStepIsGood(w: World, id: nat, why: Why, items: seq<Item>, c: Choice)
    requires WorldInv(w) && PurgeInv(w, why, items)
    ensures var next := PurgeStep(w, why, items, c);
            WorldInv(next.0) && Guarantee(w, next.0, id) && RemovesOn(next.0, next.1)
  {
    assert ItemFits(w, why, items[0]);
    if items[0].pos < |items[0].files| {
      PurgeBlobIsGood(w, id, why, items, c);
    } else {
      PurgeRowIsGood(w, id, why, items, c);
    }
  }

  /* ---------- all steps ---------- */

  lemma SweepStepIsGood(w: World, id: nat, op: Op, c: Choice)
    requires WorldInv(w) && (op.SwList? || op.SwFiles?) && RemoveInv(w, op)
    ensures var next := RemovalStep(w, op, c);
            WorldInv(next.0) && Guarantee(w, next.0, id) && RemovesOn(next.0, next.1)
  {
    NothingHappens(w, id);
    match op
    case SwList(why) => SweepListIsGood(w, why, c);
    case SwFiles(why, todo, items) => SweepFilesIsGood(w, id, why, todo, items, c);
  }

  lemma RemovalStepIsGood(w: World, id: nat, op: Op, c: Choice)
    requires WorldInv(w) && Removes(op) && RemoveInv(w, op)
    ensures var next := RemovalStep(w, op, c);
            WorldInv(next.0) && Guarantee(w, next.0, id) && RemovesOn(next.0, next.1)
  {
    if op.SwList? || op.SwFiles? {
      SweepStepIsGood(w, id, op, c);
    } else if op.Purge? {
      PurgeStepIsGood(w, id, op.why, op.items, c);
    } else {
      DeleteStepIsGood(w, id, op, c);
    }
  }

  lemma CreationStepIsGood(w: World, id: nat, op: Op, c: Choice)
    requires WorldInv(w) && Creates(op) && CreateInv(w, id, op)
    ensures var next := CreationStep(w, id, op, c);
            WorldInv(next.0) && Guarantee(w, next.0, id) && CreatesOn(next.0, id, next.1)
  {
    match op
    case Undo(keys) => UndoStepIsGood(w, id, keys, c);
    case CrWrite(slug, meta, inputs, stored) => CreateStepIsGood(w, id, slug, meta, inputs, stored, c);
    case CrAdd(slug, stored, next) => AddStepIsGood(w, id, slug, stored, next, c);
    case _ => UploadStepIsGood(w, id, op, c);
  }

  /** Whatever a step leaves behind, its operation's invariant holds. */
  lemma OnIsInv(w: World, id: nat, op: Op)
    requires CreatesOn(w, id, op) || ReadsOn(w, id, op) || RemovesOn(w, op)
    ensures OpInv(w, id, op)
  {
  }

  /** The guarantee: any step of any operation, whatever the environment answers. */
  lemma StepIsGood(w: World, id: nat, op: Op, c: Choice)
    requires WorldInv(w) && OpInv(w, id, op)
    ensures Good(w, id, StepOp(w, id, op, c))
  {
    var next := StepOp(w, id, op, c);
    if op.Done? {
      NothingHappens(w, id);
    } else {
      if Creates(op) {
        CreationStepIsGood(w, id, op, c);
      } else if Reads(op) {
        ReadStepIsGood(w, id, op, c);
      } else {
        RemovalStepIsGood(w, id, op, c);
      }
      OnIsInv(next.0, id, next.1);
    }
  }
}
