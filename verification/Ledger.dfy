/**
 The row/blob ledger: which blobs exist without a row, which rows without their blobs, and why.
 A blob without a row is held by an unfinished creation or has a recorded fault to blame; a row
 without its blob is being removed right now or had its own deletion fail.
 */
module Ledger {
  import opened Images
  import opened Shares
  import opened Machine
  import opened Invariant
  import opened Stability
  import opened Effects
  import opened Steps
  import opened Reachable

  /** An unfinished creation (or its rollback) that still answers for blob k. */
  predicate Holds(op: Op, k: string) {
    match op
    case UpInsert(slug, _) => slug == k
    case Undo(keys) => k in keys
    case CrWrite(_, _, _, stored) => k in KeysOf(stored)
    case CrAdd(_, stored, next) => exists j :: next <= j < |stored| && stored[j].key == k
    case _ => false
  }

  /** A removal of share r that has already handled blob k and has yet to delete the row. */
  predicate Clears(op: Op, r: Ref, k: string) {
    && op.Purge? && op.items != [] && op.items[0].ref == r
    && exists j :: 0 <= j < op.items[0].pos && j < |op.items[0].files| && op.items[0].files[j].key == k
  }

  /** A live row names blob k. */
  ghost predicate RowNames(w: World, k: string) {
    Bound(w, k) && Home(k, w.tickets[k].use) in w.rows
  }

  /** The recorded faults of a removal that can leave blob k behind. */
  ghost predicate Blamed(w: World, k: string) {
    || StoreDeleteFailed(k) in w.faults
    || (k in w.tickets && w.tickets[k].use.ForMember? && ListedMidCreate(w.tickets[k].use.bucket) in w.faults)
  }

  /** The recorded faults that can leave blob k behind. */
  ghost predicate Excused(w: World, k: string) {
    || Blamed(w, k)
    || (k in w.tickets && w.tickets[k].use.ForMember? && AddFileFailed(w.tickets[k].use.bucket) in w.faults)
  }

  ghost predicate BlobAccounted(w: World, ops: map<nat, Op>, k: string) {
    || RowNames(w, k)
    || (k in w.tickets && w.tickets[k].op in ops && Holds(ops[w.tickets[k].op], k))
    || Excused(w, k)
  }

  ghost predicate FileAccounted(w: World, ops: map<nat, Op>, r: Ref, k: string) {
    || k in w.blobs
    || RowDeleteFailed(r) in w.faults
    || exists i :: i in ops && Clears(ops[i], r, k)
  }

  ghost predicate LedgerInv(s: Sys) {
    && (forall k :: k in s.w.blobs ==> BlobAccounted(s.w, s.ops, k))
    && (forall r, k :: r in s.w.rows && HasKey(Owned(s.w, r), k) ==> FileAccounted(s.w, s.ops, r, k))
  }

  /* ---------- what one step must do for the ledger ---------- */

  ghost predicate KeepsBlobs(w: World, id: nat, op: Op, w': World, op': Op) {
    && (forall k :: k in w'.blobs && k !in w.blobs ==>
          k in w'.tickets && w'.tickets[k].op == id && Holds(op', k))
    && (forall k :: k in w'.blobs && k in w.blobs && k in w.tickets && w.tickets[k].op == id && Holds(op, k) ==>
          Holds(op', k) || RowNames(w', k) || Excused(w', k))
    && (forall k :: k in w'.blobs && k in w.blobs && RowNames(w, k) ==> RowNames(w', k) || Blamed(w', k))
  }

  ghost predicate KeepsFiles(w: World, op: Op, w': World, op': Op) {
    && (forall r, k :: r in w'.rows && HasKey(Owned(w', r), k) && !(r in w.rows && HasKey(Owned(w, r), k)) ==>
          k in w'.blobs)
    && (forall r, k :: r in w'.rows && HasKey(Owned(w, r), k) && k in w.blobs && k !in w'.blobs ==> Clears(op', r, k))
    && (forall r, k :: r in w'.rows && Clears(op, r, k) ==> Clears(op', r, k) || RowDeleteFailed(r) in w'.faults)
  }

  ghost predicate Balanced(w: World, id: nat, op: Op, next: (World, Op)) {
    KeepsBlobs(w, id, op, next.0, next.1) && KeepsFiles(w, op, next.0, next.1)
  }

  lemma LedgerComposes(s: Sys, id: nat, op: Op, next: (World, Op))
    requires LedgerInv(s) && HistoryGrows(s.w, next.0, id)
    requires (id in s.ops && s.ops[id] == op) || (id !in s.ops && !op.Purge? && forall k :: !Holds(op, k))
    requires Balanced(s.w, id, op, next)
    ensures LedgerInv(Sys(next.0, s.ops[id := next.1]))
  {
    var s' := Sys(next.0, s.ops[id := next.1]);
    forall k | k in s'.w.blobs ensures BlobAccounted(s'.w, s'.ops, k) {
      if k in s.w.blobs { assert BlobAccounted(s.w, s.ops, k); }
    }
    forall r, k | r in s'.w.rows && HasKey(Owned(s'.w, r), k) ensures FileAccounted(s'.w, s'.ops, r, k) {
      LedgerFile(s, id, op, next, r, k);
    }
  }

  lemma LedgerFile(s: Sys, id: nat, op: Op, next: (World, Op), r: Ref, k: string)
    requires LedgerInv(s) && s.w.faults <= next.0.faults
    requires (id in s.ops && s.ops[id] == op) || (id !in s.ops && !op.Purge?)
    requires KeepsFiles(s.w, op, next.0, next.1)
    requires r in next.0.rows && HasKey(Owned(next.0, r), k)
    ensures FileAccounted(next.0, s.ops[id := next.1], r, k)
  {
    var w', ops' := next.0, s.ops[id := next.1];
    if r in s.w.rows && HasKey(Owned(s.w, r), k) {
      assert FileAccounted(s.w, s.ops, r, k);
      if k in s.w.blobs {
        if k !in w'.blobs { assert Clears(ops'[id], r, k); }
      } else if RowDeleteFailed(r) !in s.w.faults {
        var i :| i in s.ops && Clears(s.ops[i], r, k);
        assert i != id ==> Clears(ops'[i], r, k);
        assert i == id ==> Clears(ops'[id], r, k) || RowDeleteFailed(r) in w'.faults;
      }
    }
  }

  /* ---------- every step is balanced ---------- */

  /** A step that moves no row and no blob, by an operation with nothing pending. */
  lemma QuietIsBalanced(w: World, id: nat, op: Op, next: (World, Op))
    requires forall k :: !Holds(op, k)
    requires forall r, k :: !Clears(op, r, k)
    requires next.0.rows.Keys == w.rows.Keys && next.0.blobs == w.blobs && next.0.born == w.born &&
             next.0.plan == w.plan
    requires next.0.added == w.added && SameTickets(w, next.0)
    ensures Balanced(w, id, op, next)
  {
    var w' := next.0;
    forall r ensures Owned(w', r) == Owned(w, r) { }
    assert forall r :: r in w'.rows <==> r in w.rows;
    forall k | RowNames(w, k) ensures RowNames(w', k) { }
  }

  lemma UpWriteIsBalanced(w: World, id: nat, slug: string, meta: Meta, content: Bytes)
    requires slug in w.tickets && w.tickets[slug].op == id
    ensures Balanced(w, id, UpWrite(slug, meta, content), (w.(blobs := w.blobs[slug := content]), UpInsert(slug, meta)))
  {
    var w' := w.(blobs := w.blobs[slug := content]);
    forall q ensures Owned(w', q) == Owned(w, q) { }
  }

  lemma UpInsertIsBalanced(w: World, id: nat, slug: string, meta: Meta)
    requires UpInsertInv(w, id, slug, meta)
    requires forall q :: q in w.rows ==> q in w.born
    ensures var r := Ref(FileShare, slug);
            Balanced(w, id, UpInsert(slug, meta), (InsertRow(w, r, meta), Done(Stored(r))))
  {
    var r := Ref(FileShare, slug);
    var w' := InsertRow(w, r, meta);
    forall q | q != r ensures Owned(w', q) == Owned(w, q) { }
    assert Owned(w', r)[0].key == slug;
  }

  lemma PasteInsertIsBalanced(w: World, id: nat, slug: string, meta: Meta)
    requires forall q :: q in w.rows ==> q in w.born
    ensures var r := Ref(PasteShare, slug);
            Balanced(w, id, PasteInsert(slug, meta), (InsertRow(w, r, meta), Done(Stored(r))))
  {
    var r := Ref(PasteShare, slug);
    var w' := InsertRow(w, r, meta);
    forall q ensures Owned(w', q) == Owned(w, q) { }
  }

  lemma UploadIsBalanced(w: World, id: nat, op: Op, c: Choice)
    requires WorldInv(w) && (op.UpWrite? || op.UpInsert? || op.PasteInsert?) && CreateInv(w, id, op)
    ensures Balanced(w, id, op, UploadStep(w, op, c))
  {
    if op.UpWrite? && c.Succeed? {
      UpWriteIsBalanced(w, id, op.slug, op.meta, op.content);
    } else if op.UpInsert? && c.Succeed? {
      UpInsertIsBalanced(w, id, op.slug, op.meta);
    } else if op.PasteInsert? && c.Succeed? {
      PasteInsertIsBalanced(w, id, op.slug, op.meta);
    } else if op.UpInsert? {
      assert Holds(Undo([op.slug]), op.slug);
    } else {
      QuietIsBalanced(w, id, op, (w, Done(Failed)));
    }
  }

  /** A blob under rollback is named by no row. */
  lemma UndoneIsUnnamed(w: World, id: nat, k: string, r: Ref)
    requires WorldInv(w) && UndoFits(w, id, k) && r in w.rows
    ensures !HasKey(Owned(w, r), k)
  {
    if HasKey(Owned(w, r), k) {
      var i :| 0 <= i < |Owned(w, r)| && Owned(w, r)[i].key == k;
      OwnedIsBound(w, r, i);
    }
  }

  lemma UndoIsBalanced(w: World, id: nat, keys: seq<string>, c: Choice)
    requires WorldInv(w) && UndoInv(w, id, keys)
    ensures Balanced(w, id, Undo(keys), UndoStep(w, keys, c))
  {
    if keys != [] {
      assert UndoFits(w, id, keys[0]);
      forall r | r in w.rows ensures !HasKey(Owned(w, r), keys[0]) { UndoneIsUnnamed(w, id, keys[0], r); }
    }
    UndoBalances(w, id, keys, c);
  }

  lemma UndoBalances(w: World, id: nat, keys: seq<string>, c: Choice)
    requires keys != [] ==> forall r :: r in w.rows ==> !HasKey(Owned(w, r), keys[0])
    ensures Balanced(w, id, Undo(keys), UndoStep(w, keys, c))
  {
    var w' := UndoStep(w, keys, c).0;
    forall q ensures Owned(w', q) == Owned(w, q) { }
    if keys != [] { assert keys == [keys[0]] + keys[1..]; }
  }

  lemma WriteIsBalanced(w: World, id: nat, slug: string, meta: Meta, inputs: seq<Input>, stored: seq<Member>, c: Choice)
    requires WorldInv(w) && CrWriteInv(w, id, slug, meta, inputs, stored) && |stored| < |inputs|
    ensures Balanced(w, id, CrWrite(slug, meta, inputs, stored), CreateStep(w, id, slug, meta, inputs, stored, c))
  {
    if c.Draw? && FreshSlug(w, c.key) {
      DrawIsBalanced(w, id, slug, meta, inputs, stored, c.key);
    } else if c.Draw? {
    } else {
      RollbackHolds(w, id, slug, meta, inputs, stored);
    }
  }

  lemma RollbackHolds(w: World, id: nat, slug: string, meta: Meta, inputs: seq<Input>, stored: seq<Member>)
    ensures Balanced(w, id, CrWrite(slug, meta, inputs, stored), (w, UndoNext(KeysOf(stored))))
  {
  }

  lemma DrawIsBalanced(w: World, id: nat, slug: string, meta: Meta, inputs: seq<Input>, stored: seq<Member>,
                       key: string)
    requires |stored| < |inputs| && FreshSlug(w, key) && forall k :: k in w.blobs ==> k in w.tickets
    ensures var content := inputs[|stored|].content;
            Balanced(w, id, CrWrite(slug, meta, inputs, stored),
                     (Issue(w, id, key, ForMember(slug, content)).(blobs := w.blobs[key := content]),
                      CrWrite(slug, meta, inputs, stored + [Member(key, inputs[|stored|])])))
  {
    var content := inputs[|stored|].content;
    var w' := Issue(w, id, key, ForMember(slug, content)).(blobs := w.blobs[key := content]);
    forall q ensures Owned(w', q) == Owned(w, q) { }
    assert KeysOf(stored + [Member(key, inputs[|stored|])]) == KeysOf(stored) + [key];
  }

  lemma HandOverHolds(slug: string, stored: seq<Member>, k: string)
    requires k in KeysOf(stored)
    ensures Holds(CrAdd(slug, stored, 0), k)
  {
    var j :| 0 <= j < |stored| && KeysOf(stored)[j] == k;
    assert stored[j].key == k;
  }

  lemma BucketKeepsOwned(w: World, slug: string, meta: Meta, stored: seq<Member>)
    requires Ref(BucketShare, slug) !in w.born
    ensures forall q :: q in w.born ==> Owned(WithBucket(w, slug, meta, stored), q) == Owned(w, q)
    ensures Owned(WithBucket(w, slug, meta, stored), Ref(BucketShare, slug)) == []
  {
  }

  lemma BucketIsBalanced(w: World, id: nat, slug: string, meta: Meta, inputs: seq<Input>, stored: seq<Member>)
    requires Ref(BucketShare, slug) !in w.born
    requires forall q :: q in w.rows ==> q in w.born
    ensures Balanced(w, id, CrWrite(slug, meta, inputs, stored),
                     (WithBucket(w, slug, meta, stored), CrAdd(slug, stored, 0)))
  {
    BucketKeepsOwned(w, slug, meta, stored);
    var w' := WithBucket(w, slug, meta, stored);
    assert KeepsBlobs(w, id, CrWrite(slug, meta, inputs, stored), w', CrAdd(slug, stored, 0)) by {
      forall k | k in KeysOf(stored) ensures Holds(CrAdd(slug, stored, 0), k) { HandOverHolds(slug, stored, k); }
    }
  }

  lemma InsertIsBalanced(w: World, id: nat, slug: string, meta: Meta, inputs: seq<Input>, stored: seq<Member>,
                         c: Choice)
    requires WorldInv(w) && CrWriteInv(w, id, slug, meta, inputs, stored) && |stored| == |inputs|
    ensures Balanced(w, id, CrWrite(slug, meta, inputs, stored), CreateStep(w, id, slug, meta, inputs, stored, c))
  {
    if c.Succeed? && Ref(BucketShare, slug) !in w.rows {
      BucketIsBalanced(w, id, slug, meta, inputs, stored);
    }
  }

  /** One AddFile extends its bucket's list and nobody else's. */
  lemma FileExtendsOwned(w: World, id: nat, slug: string, stored: seq<Member>, next: nat)
    requires CrAddInv(w, id, slug, stored, next) && next < |stored| && PlanFits(w, slug)
    ensures var w' := WithFile(w, slug, stored, next); var r := Ref(BucketShare, slug);
            && (forall q :: q != r ==> Owned(w', q) == Owned(w, q))
            && Owned(w', r) == Owned(w, r) + [AsFile(stored[next])]
            && (forall q, k :: HasKey(Owned(w, q), k) ==> HasKey(Owned(w', q), k))
            && (forall q, k :: HasKey(Owned(w', q), k) ==> HasKey(Owned(w, q), k) || k == stored[next].key)
  {
    var w' := WithFile(w, slug, stored, next);
    assert stored[..next + 1] == stored[..next] + [stored[next]];
    assert AsFiles(stored[..next + 1]) == AsFiles(stored[..next]) + [AsFile(stored[next])];
    OwnedAppends(w, w', Ref(BucketShare, slug), AsFile(stored[next]));
  }

  lemma FileKeepsBlobs(w: World, id: nat, slug: string, stored: seq<Member>, next: nat)
    requires CrAddInv(w, id, slug, stored, next) && next < |stored| && PlanFits(w, slug)
    requires Ref(BucketShare, slug) in w.rows
    ensures KeepsBlobs(w, id, CrAdd(slug, stored, next), WithFile(w, slug, stored, next), CrAdd(slug, stored, next + 1))
  {
    FileExtendsOwned(w, id, slug, stored, next);
    assert HasKey(Owned(WithFile(w, slug, stored, next), Ref(BucketShare, slug)), stored[next].key) by {
      var owned := Owned(WithFile(w, slug, stored, next), Ref(BucketShare, slug));
      assert owned[|owned| - 1].key == stored[next].key;
    }
  }

  lemma FileIsBalanced(w: World, id: nat, slug: string, stored: seq<Member>, next: nat)
    requires CrAddInv(w, id, slug, stored, next) && next < |stored| && PlanFits(w, slug)
    requires Ref(BucketShare, slug) in w.rows
    ensures Balanced(w, id, CrAdd(slug, stored, next), (WithFile(w, slug, stored, next), CrAdd(slug, stored, next + 1)))
  {
    FileKeepsBlobs(w, id, slug, stored, next);
    FileExtendsOwned(w, id, slug, stored, next);
  }

  lemma AddEndIsBalanced(w: World, id: nat, slug: string, stored: seq<Member>, next: nat, w': World, op': Op)
    requires CrAddInv(w, id, slug, stored, next) && PlanFits(w, slug)
    requires w' == w.(ended := w'.ended, completed := w'.completed, faults := w'.faults) && w.faults <= w'.faults
    requires next < |stored| ==> AddFileFailed(slug) in w'.faults
    ensures Balanced(w, id, CrAdd(slug, stored, next), (w', op'))
  {
    forall q ensures Owned(w', q) == Owned(w, q) { }
    forall k | RowNames(w, k) ensures RowNames(w', k) { }
    forall k | Holds(CrAdd(slug, stored, next), k) ensures Excused(w', k) {
      var j :| next <= j < |stored| && stored[j].key == k;
    }
  }

  lemma AddIsBalanced(w: World, id: nat, slug: string, stored: seq<Member>, next: nat, c: Choice)
    requires WorldInv(w) && CrAddInv(w, id, slug, stored, next)
    ensures Balanced(w, id, CrAdd(slug, stored, next), AddStep(w, slug, stored, next, c))
  {
    assert PlanFits(w, slug);
    if next < |stored| && c.Succeed? && Ref(BucketShare, slug) in w.rows {
      FileIsBalanced(w, id, slug, stored, next);
    } else {
      var on := AddStep(w, slug, stored, next, c);
      AddEndIsBalanced(w, id, slug, stored, next, on.0, on.1);
    }
  }

  lemma OwnedAppends(w: World, w': World, r: Ref, f: BFile)
    requires Owned(w', r) == Owned(w, r) + [f]
    ensures forall k :: HasKey(Owned(w', r), k) <==> HasKey(Owned(w, r), k) || k == f.key
  {
    forall k | HasKey(Owned(w, r), k) || k == f.key ensures HasKey(Owned(w', r), k) {
      if HasKey(Owned(w, r), k) {
        var i :| 0 <= i < |Owned(w, r)| && Owned(w, r)[i].key == k;
        assert Owned(w', r)[i].key == k;
      } else {
        assert Owned(w', r)[|Owned(w, r)|].key == k;
      }
    }
  }

  lemma ReadIsBalanced(w: World, id: nat, op: Op, c: Choice)
    requires Reads(op)
    ensures Balanced(w, id, op, ReadStep(w, id, op, c))
  {
    var next := ReadStep(w, id, op, c);
    if op.RdMark? && next.0 != w {
      assert next.0.rows.Keys == w.rows.Keys;
    }
    QuietIsBalanced(w, id, op, next);
  }

  /** Lookups and listings of a removal leave everything but the fault record alone. */
  lemma ListingOnlyBlames(w: World, op: Op, c: Choice)
    requires Removes(op) && !op.Purge?
    ensures var w' := RemovalStep(w, op, c).0; w' == w.(faults := w'.faults)
  {
    if op.SwFiles? && op.why.BySweep? {
      FileQueryOnlyBlames(w, op.why, op.todo, op.items, c);
    } else if op.DlRow? || op.DlFiles? {
      DeleteReadOnlyBlames(w, op, c);
    }
  }

  lemma FileQueryOnlyBlames(w: World, why: Why, todo: seq<Item>, items: seq<Item>, c: Choice)
    requires why.BySweep?
    ensures var w' := SweepFilesStep(w, why, todo, items, c).0; w' == w.(faults := w'.faults)
  {
  }

  lemma DeleteReadOnlyBlames(w: World, op: Op, c: Choice)
    requires op.DlRow? || op.DlFiles?
    ensures var w' := DeleteStep(w, op, c).0; w' == w.(faults := w'.faults)
  {
    if c.Succeed? && op.DlRow? && op.ref in w.rows && !op.ref.kind.BucketShare? {
      AuthorizeOnlyBlames(w, op.ref, op.secret, w.rows[op.ref].meta, SingleFile(op.ref, w.rows[op.ref].meta));
    } else if c.Succeed? && op.DlFiles? {
      AuthorizeOnlyBlames(w, op.ref, op.secret, op.meta, FilesOf(w.bfiles, op.ref.slug));
    }
  }

  lemma AuthorizeOnlyBlames(w: World, r: Ref, secret: string, meta: Meta, files: seq<BFile>)
    ensures var w' := Authorize(w, r, secret, meta, files).0; w' == w.(faults := w'.faults)
  {
  }

  lemma ListingIsBalanced(w: World, id: nat, op: Op, c: Choice)
    requires Removes(op) && !op.Purge?
    ensures Balanced(w, id, op, RemovalStep(w, op, c))
  {
    ListingOnlyBlames(w, op, c);
    QuietIsBalanced(w, id, op, RemovalStep(w, op, c));
  }

  lemma MovedClears(why: Why, items: seq<Item>, r: Ref, k: string)
    requires items != [] && Clears(Purge(why, items), r, k)
    ensures Clears(Purge(why, Moved(items)), r, k)
  {
    var j :| 0 <= j < items[0].pos && j < |items[0].files| && items[0].files[j].key == k;
    assert Moved(items)[0].files[j].key == k;
  }

  /** Only the row being removed names the blob just deleted. */
  lemma DroppedBlobIsCleared(w: World, why: Why, items: seq<Item>, r: Ref)
    requires WorldInv(w) && PurgeInv(w, why, items) && items[0].pos < |items[0].files|
    requires r in w.rows && HasKey(Owned(w, r), items[0].files[items[0].pos].key)
    ensures Clears(Purge(why, Moved(items)), r, items[0].files[items[0].pos].key)
  {
    var it := items[0];
    var k := it.files[it.pos].key;
    var i :| 0 <= i < |Owned(w, r)| && Owned(w, r)[i].key == k;
    assert ItemFits(w, why, it);
    OwnedIsBound(w, r, i);
    OwnedIsBound(w, it.ref, it.pos);
    assert Moved(items)[0].files[it.pos].key == k;
  }

  lemma PurgeOnKeepsBlobs(w: World, id: nat, why: Why, items: seq<Item>, w': World)
    requires items != []
    requires w' == w.(blobs := w'.blobs, faults := w'.faults) && w'.blobs.Keys <= w.blobs.Keys
    ensures KeepsBlobs(w, id, Purge(why, items), w', Purge(why, Moved(items)))
  {
    forall q ensures Owned(w', q) == Owned(w, q) { }
  }

  lemma PurgeOnIsBalanced(w: World, id: nat, why: Why, items: seq<Item>, w': World)
    requires WorldInv(w) && PurgeInv(w, why, items) && items[0].pos < |items[0].files|
    requires w' == DropBlob(w, items[0].files[items[0].pos].key) ||
             w' == Blame(w, StoreDeleteFailed(items[0].files[items[0].pos].key))
    ensures Balanced(w, id, Purge(why, items), (w', Purge(why, Moved(items))))
  {
    PurgeOnKeepsBlobs(w, id, why, items, w');
    forall q ensures Owned(w', q) == Owned(w, q) { }
    forall r, k | Clears(Purge(why, items), r, k) ensures Clears(Purge(why, Moved(items)), r, k) {
      MovedClears(why, items, r, k);
    }
    forall r | r in w.rows && HasKey(Owned(w, r), items[0].files[items[0].pos].key)
      ensures Clears(Purge(why, Moved(items)), r, items[0].files[items[0].pos].key)
    {
      DroppedBlobIsCleared(w, why, items, r);
    }
  }

  lemma PurgeBlobIsBalanced(w: World, id: nat, why: Why, items: seq<Item>, c: Choice)
    requires WorldInv(w) && PurgeInv(w, why, items) && items[0].pos < |items[0].files|
    ensures Balanced(w, id, Purge(why, items), PurgeBlob(w, why, items, c))
  {
    if !c.Succeed? && why.BySecret? && items[0].ref.kind.FileShare? {
      assert ItemFits(w, why, items[0]);
      assert |items[0].files| <= 1;
      QuietIsBalanced(w, id, Purge(why, items), (w, Done(Failed)));
    } else {
      PurgeOnIsBalanced(w, id, why, items, PurgeBlob(w, why, items, c).0);
    }
  }

  /** Deleting a row with every listed blob handled leaves only blobs with a fault to blame. */
  lemma DeletedRowIsBlamed(w: World, why: Why, it: Item, k: string)
    requires WorldInv(w) && ItemFits(w, why, it) && it.pos == |it.files| && it.ref in w.rows
    requires k in w.blobs && Bound(w, k) && Home(k, w.tickets[k].use) == it.ref
    ensures Blamed(w, k)
  {
    if !ListedEarly(w, it.ref) {
      var i :| 0 <= i < |Owned(w, it.ref)| && Owned(w, it.ref)[i].key == k;
      assert Cleared(w, it.files[i].key);
    }
  }

  lemma RowGoneIsBalanced(w: World, id: nat, why: Why, items: seq<Item>, op': Op)
    requires WorldInv(w) && PurgeInv(w, why, items) && items[0].pos == |items[0].files|
    ensures Balanced(w, id, Purge(why, items), (DeleteRow(w, items[0].ref), op'))
  {
    var r := items[0].ref;
    var w' := DeleteRow(w, r);
    RowGoneKeepsFiles(w, why, items, op');
    assert ItemFits(w, why, items[0]);
    forall k | k in w.blobs && RowNames(w, k) ensures RowNames(w', k) || Blamed(w', k) {
      if Home(k, w.tickets[k].use) == r { DeletedRowIsBlamed(w, why, items[0], k); }
    }
  }

  lemma RowGoneKeepsFiles(w: World, why: Why, items: seq<Item>, op': Op)
    requires items != []
    ensures KeepsFiles(w, Purge(why, items), DeleteRow(w, items[0].ref), op')
  {
    forall q ensures Owned(DeleteRow(w, items[0].ref), q) == Owned(w, q) { }
  }

  lemma PurgeRowIsBalanced(w: World, id: nat, why: Why, items: seq<Item>, c: Choice)
    requires WorldInv(w) && PurgeInv(w, why, items) && items[0].pos == |items[0].files|
    ensures Balanced(w, id, Purge(why, items), PurgeRow(w, why, items, c))
  {
    var next := PurgeRow(w, why, items, c);
    if c.Succeed? {
      RowGoneIsBalanced(w, id, why, items, next.1);
    } else {
      forall q ensures Owned(next.0, q) == Owned(w, q) { }
      forall k | RowNames(w, k) ensures RowNames(next.0, k) { }
    }
  }

  lemma PurgeIsBalanced(w: World, id: nat, why: Why, items: seq<Item>, c: Choice)
    requires WorldInv(w) && PurgeInv(w, why, items)
    ensures Balanced(w, id, Purge(why, items), PurgeStep(w, why, items, c))
  {
    assert ItemFits(w, why, items[0]);
    if items[0].pos < |items[0].files| {
      PurgeBlobIsBalanced(w, id, why, items, c);
    } else {
      PurgeRowIsBalanced(w, id, why, items, c);
    }
  }

  lemma CreationIsBalanced(w: World, id: nat, op: Op, c: Choice)
    requires WorldInv(w) && Creates(op) && CreateInv(w, id, op)
    ensures Balanced(w, id, op, CreationStep(w, id, op, c))
  {
    match op
    case Undo(keys) => UndoIsBalanced(w, id, keys, c);
    case CrWrite(slug, meta, inputs, stored) =>
      if |stored| < |inputs| {
        WriteIsBalanced(w, id, slug, meta, inputs, stored, c);
      } else {
        InsertIsBalanced(w, id, slug, meta, inputs, stored, c);
      }
    case CrAdd(slug, stored, next) => AddIsBalanced(w, id, slug, stored, next, c);
    case _ => UploadIsBalanced(w, id, op, c);
  }

  lemma StepIsBalanced(w: World, id: nat, op: Op, c: Choice)
    requires WorldInv(w) && OpInv(w, id, op)
    ensures Balanced(w, id, op, StepOp(w, id, op, c))
  {
    if op.Done? {
      QuietIsBalanced(w, id, op, (w, op));
    } else if Creates(op) {
      CreationIsBalanced(w, id, op, c);
    } else if Reads(op) {
      ReadIsBalanced(w, id, op, c);
    } else if op.Purge? {
      PurgeIsBalanced(w, id, op.why, op.items, c);
    } else {
      ListingIsBalanced(w, id, op, c);
    }
  }

  /* ---------- every run ---------- */

  lemma TickLedger(s: Sys, d: nat)
    requires LedgerInv(s)
    ensures LedgerInv(Step(s, Tick(d)))
  {
    var s' := Step(s, Tick(d));
    forall q ensures Owned(s'.w, q) == Owned(s.w, q) { }
    forall k | k in s'.w.blobs ensures BlobAccounted(s'.w, s'.ops, k) { assert BlobAccounted(s.w, s.ops, k); }
    forall r, k | r in s'.w.rows && HasKey(Owned(s'.w, r), k) ensures FileAccounted(s'.w, s'.ops, r, k) {
      assert FileAccounted(s.w, s.ops, r, k);
    }
  }

  lemma BeginGrows(w: World, id: nat, req: Request)
    requires WorldInv(w) && Possible(w, req)
    ensures HistoryGrows(w, Begin(w, id, req).0, id)
  {
    BeginIsGood(w, id, req);
  }

  lemma BeginMovesNothing(w: World, id: nat, req: Request)
    requires Possible(w, req)
    ensures var w' := Begin(w, id, req).0; w' == w.(tickets := w'.tickets) && SameTickets(w, w')
  {
  }

  lemma StartLedger(s: Sys, id: nat, req: Request)
    requires WorldInv(s.w) && LedgerInv(s) && id !in s.ops && Possible(s.w, req)
    ensures LedgerInv(Sys(Begin(s.w, id, req).0, s.ops[id := Begin(s.w, id, req).1]))
  {
    var next := Begin(s.w, id, req);
    BeginGrows(s.w, id, req);
    BeginMovesNothing(s.w, id, req);
    QuietIsBalanced(s.w, id, Done(Failed), next);
    LedgerComposes(s, id, Done(Failed), next);
  }

  lemma AdvanceLedger(s: Sys, id: nat, c: Choice)
    requires WorldInv(s.w) && LedgerInv(s) && id in s.ops && OpInv(s.w, id, s.ops[id])
    ensures LedgerInv(Sys(StepOp(s.w, id, s.ops[id], c).0, s.ops[id := StepOp(s.w, id, s.ops[id], c).1]))
  {
    var next := StepOp(s.w, id, s.ops[id], c);
    assert HistoryGrows(s.w, next.0, id) by { StepIsGood(s.w, id, s.ops[id], c); }
    StepIsBalanced(s.w, id, s.ops[id], c);
    LedgerComposes(s, id, s.ops[id], next);
  }

  lemma StepLedger(s: Sys, e: Event)
    requires Inv(s) && LedgerInv(s)
    ensures LedgerInv(Step(s, e))
  {
    if e.Tick? {
      TickLedger(s, e.d);
    } else if e.Start? && e.id !in s.ops && Possible(s.w, e.req) {
      StartLedger(s, e.id, e.req);
    } else if e.Advance? && e.id in s.ops {
      AdvanceLedger(s, e.id, e.choice);
    }
  }

  lemma {:induction false} RunLedger(s: Sys, es: seq<Event>)
    requires Inv(s) && LedgerInv(s)
    ensures LedgerInv(Run(s, es))
  {
    if es != [] {
      RunLedger(s, es[..|es| - 1]);
      RunInv(s, es[..|es| - 1]);
      StepLedger(Run(s, es[..|es| - 1]), es[|es| - 1]);
    }
  }

  /** Every blob and every row of every reachable state is accounted for. */
  lemma EveryBlobAndRowAccounted(s: Sys)
    requires IsReachable(s)
    ensures LedgerInv(s)
  {
    var now, bcrypt, es :| s == Run(Initial(now, bcrypt), es);
    InitialInv(now, bcrypt);
    RunLedger(Initial(now, bcrypt), es);
  }
}
