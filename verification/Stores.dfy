/** The ledger, read out: when the blob store and the tables match exactly. */
module Stores {
  import opened Shares
  import opened Machine
  import opened Invariant
  import opened Stability
  import opened Steps
  import opened Delivery
  import opened Reachable
  import opened Ledger

  /** A row of the files table, or a row of bucket_files, names blob k. */
  ghost predicate Named(w: World, k: string) {
    Ref(FileShare, k) in w.rows || exists i :: 0 <= i < |w.bfiles| && w.bfiles[i].file.key == k
  }

  /** No request and no sweep is under way. */
  ghost predicate Quiescent(s: Sys) {
    forall id :: id in s.ops ==> s.ops[id].Done?
  }

  lemma RowNamesIsNamed(w: World, k: string)
    requires WorldInv(w) && RowNames(w, k)
    ensures Named(w, k)
  {
    var h := Home(k, w.tickets[k].use);
    if h.kind.BucketShare? {
      assert ListOk(w, h.slug);
      var i :| 0 <= i < |Owned(w, h)| && Owned(w, h)[i].key == k;
      FilesOfMembers(w.bfiles, h.slug, Owned(w, h)[i]);
    }
  }

  lemma NamedIsRowNames(w: World, k: string)
    requires WorldInv(w) && Named(w, k)
    ensures RowNames(w, k) && HasKey(Owned(w, Home(k, w.tickets[k].use)), k)
  {
    if Ref(FileShare, k) in w.rows {
      OwnedIsBound(w, Ref(FileShare, k), 0);
    } else {
      var i :| 0 <= i < |w.bfiles| && w.bfiles[i].file.key == k;
      var b := w.bfiles[i].bucket;
      FilesOfMembers(w.bfiles, b, w.bfiles[i].file);
      assert ListOk(w, b);
      var j :| 0 <= j < |Owned(w, Ref(BucketShare, b))| && Owned(w, Ref(BucketShare, b))[j] == w.bfiles[i].file;
      OwnedIsBound(w, Ref(BucketShare, b), j);
    }
  }

  /**
   Blame, blob side.  A blob no row names is still held by the creation that wrote it, or one of
   three things is on record: its own deletion failed and was ignored, or a remover listed its bucket
   before Create was done, or its own file row was never inserted because an AddFile of its bucket failed.
   */
  lemma OrphanBlobIsExplained(s: Sys, k: string)
    requires IsReachable(s) && k in s.w.blobs && !Named(s.w, k)
    ensures k in s.w.tickets && s.w.tickets[k].op in s.ops
    ensures Holds(s.ops[s.w.tickets[k].op], k) || Blamed(s.w, k) || StrandedByAddFile(s.w, k)
  {
    ReachableInv(s);
    EveryBlobAndRowAccounted(s);
    assert BlobAccounted(s.w, s.ops, k);
    if RowNames(s.w, k) { RowNamesIsNamed(s.w, k); }
    if Bound(s.w, k) { DeadBlobsAreBlamed(s); }
  }

  /** The blob's own file row was never inserted, because an AddFile of its bucket failed. */
  ghost predicate StrandedByAddFile(w: World, k: string) {
    && k in w.tickets && w.tickets[k].use.ForMember? && AddFileFailed(w.tickets[k].use.bucket) in w.faults
    && !Bound(w, k)
  }

  /**
   Blame, row side.  A named blob is missing only while a removal of its share is between the blob
   and the row, or after a failed deletion of that row.
   */
  lemma MissingBlobIsExplained(s: Sys, k: string)
    requires IsReachable(s) && Named(s.w, k) && k !in s.w.blobs
    ensures k in s.w.tickets
    ensures var r := Home(k, s.w.tickets[k].use);
            || RowDeleteFailed(r) in s.w.faults
            || exists i :: i in s.ops && Clears(s.ops[i], r, k)
  {
    ReachableInv(s);
    EveryBlobAndRowAccounted(s);
    NamedIsRowNames(s.w, k);
    assert FileAccounted(s.w, s.ops, Home(k, s.w.tickets[k].use), k);
  }

  /**
   The exact match.  When nothing is under way and none of the four blameworthy faults has
   happened, the blob store holds exactly the blobs the two file tables name, each with the bytes
   its upload brought; failed writes, inserts, reads and marks leave no trace.
   */
  lemma QuietStoresMatch(s: Sys, k: string)
    requires IsReachable(s) && Quiescent(s) && s.w.faults == {}
    ensures k in s.w.blobs <==> Named(s.w, k)
    ensures k in s.w.blobs ==> k in s.w.tickets && NamesBlob(s.w.tickets[k].use) &&
                               s.w.blobs[k] == s.w.tickets[k].use.content
  {
    ReachableInv(s);
    if k in s.w.blobs && !Named(s.w, k) { OrphanBlobIsExplained(s, k); }
    if k !in s.w.blobs && Named(s.w, k) { MissingBlobIsExplained(s, k); }
  }

  /* ---------- shares that are gone ---------- */

  /** Every blob whose row has come and gone again has a fault of its removal to blame. */
  ghost predicate DeadBlobsBlamed(w: World) {
    forall k :: k in w.blobs && Bound(w, k) && !RowNames(w, k) ==> Blamed(w, k)
  }

  /** A blob comes to be named only by an insert, and then its row is there. */
  lemma NewlyBoundIsNamed(w: World, id: nat, op: Op, c: Choice, k: string)
    requires Creates(op) && CreateInv(w, id, op) && !Bound(w, k) && Bound(CreationStep(w, id, op, c).0, k)
    requires forall r :: r in w.rows ==> r in w.born
    ensures RowNames(CreationStep(w, id, op, c).0, k)
  {
    match op
    case Undo(keys) => UndoBindsNothing(w, keys, c, k);
    case CrWrite(slug, meta, inputs, stored) => CreateBindsNothing(w, id, slug, meta, inputs, stored, c, k);
    case CrAdd(slug, stored, next) =>
    case _ =>
  }

  lemma UndoBindsNothing(w: World, keys: seq<string>, c: Choice, k: string)
    ensures Bound(UndoStep(w, keys, c).0, k) == Bound(w, k)
  {
  }

  /** A drawn key has no row yet, and a new bucket row no files. */
  lemma CreateBindsNothing(w: World, id: nat, slug: string, meta: Meta, inputs: seq<Input>, stored: seq<Member>,
                           c: Choice, k: string)
    requires CrWriteInv(w, id, slug, meta, inputs, stored) && !Bound(w, k)
    ensures !Bound(CreateStep(w, id, slug, meta, inputs, stored, c).0, k)
  {
  }

  predicate SameHistory(w: World, w': World) {
    w'.tickets == w.tickets && w'.born == w.born && w'.plan == w.plan && w'.added == w.added
  }

  lemma ReadsKeepHistory(w: World, id: nat, op: Op, c: Choice)
    requires Reads(op)
    ensures SameHistory(w, ReadStep(w, id, op, c).0)
  {
  }

  lemma RemovalsKeepHistory(w: World, op: Op, c: Choice)
    requires Removes(op)
    ensures SameHistory(w, RemovalStep(w, op, c).0)
  {
    if op.Purge? {
      PurgesKeepHistory(w, op.why, op.items, c);
    } else {
      ListingOnlyBlames(w, op, c);
    }
  }

  lemma PurgesKeepHistory(w: World, why: Why, items: seq<Item>, c: Choice)
    ensures SameHistory(w, PurgeStep(w, why, items, c).0)
  {
    if items != [] {
      if items[0].pos < |items[0].files| {
        BlobDeletionKeepsHistory(w, why, items, c);
      } else {
        RowDeletionRows(w, why, items, c);
      }
    }
  }

  lemma BlobDeletionKeepsHistory(w: World, why: Why, items: seq<Item>, c: Choice)
    requires items != [] && items[0].pos < |items[0].files|
    ensures SameHistory(w, PurgeBlob(w, why, items, c).0)
  {
  }

  lemma SameHistoryBinds(w: World, w': World, k: string)
    requires SameHistory(w, w')
    ensures Bound(w', k) == Bound(w, k)
  {
  }

  lemma NewlyBound(w: World, id: nat, op: Op, c: Choice, k: string)
    requires OpInv(w, id, op) && !Bound(w, k) && Bound(StepOp(w, id, op, c).0, k)
    requires forall r :: r in w.rows ==> r in w.born
    ensures RowNames(StepOp(w, id, op, c).0, k)
  {
    if Creates(op) {
      NewlyBoundIsNamed(w, id, op, c, k);
    } else if Reads(op) {
      ReadsKeepHistory(w, id, op, c);
      SameHistoryBinds(w, ReadStep(w, id, op, c).0, k);
    } else if Removes(op) {
      RemovalsKeepHistory(w, op, c);
      SameHistoryBinds(w, RemovalStep(w, op, c).0, k);
    }
  }

  lemma BlameStays(w: World, w': World, a: nat, k: string)
    requires HistoryGrows(w, w', a) && Blamed(w, k)
    ensures Blamed(w', k)
  {
  }

  lemma DeadBlobsStay(w: World, id: nat, op: Op, next: (World, Op), k: string)
    requires WorldInv(w) && DeadBlobsBlamed(w) && Good(w, id, next) && Balanced(w, id, op, next)
    requires k in next.0.blobs && Bound(next.0, k) && !RowNames(next.0, k) && Bound(w, k)
    ensures Blamed(next.0, k)
  {
    if k in w.blobs {
      if !RowNames(w, k) { BlameStays(w, next.0, id, k); }
    } else {
      HolderIsUnbound(next.0, id, next.1, k);
    }
  }

  lemma AdvanceDeadBlobs(s: Sys, id: nat, c: Choice)
    requires Inv(s) && id in s.ops && DeadBlobsBlamed(s.w)
    ensures DeadBlobsBlamed(StepOp(s.w, id, s.ops[id], c).0)
  {
    var op := s.ops[id];
    var next := StepOp(s.w, id, op, c);
    StepIsGood(s.w, id, op, c);
    StepIsBalanced(s.w, id, op, c);
    forall k | k in next.0.blobs && Bound(next.0, k) && !RowNames(next.0, k) ensures Blamed(next.0, k) {
      if !Bound(s.w, k) { NewlyBound(s.w, id, op, c, k); }
      DeadBlobsStay(s.w, id, op, next, k);
    }
  }

  lemma BeginDeadBlobs(s: Sys, id: nat, req: Request)
    requires Inv(s) && id !in s.ops && Possible(s.w, req) && DeadBlobsBlamed(s.w)
    ensures DeadBlobsBlamed(Begin(s.w, id, req).0)
  {
    var w' := Begin(s.w, id, req).0;
    BeginMovesNothing(s.w, id, req);
    forall k | k in w'.blobs && Bound(w', k) && !RowNames(w', k) ensures Blamed(w', k) {
      assert k in s.w.tickets;
      SameOwned(s.w, w', Home(k, s.w.tickets[k].use));
    }
  }

  lemma SameOwned(w: World, w': World, r: Ref)
    requires w'.born == w.born && w'.plan == w.plan && w'.added == w.added
    ensures Owned(w', r) == Owned(w, r)
  {
  }

  lemma TickDeadBlobs(s: Sys, d: nat)
    requires DeadBlobsBlamed(s.w)
    ensures DeadBlobsBlamed(Step(s, Tick(d)).w)
  {
    var w' := Step(s, Tick(d)).w;
    forall k | k in w'.blobs && Bound(w', k) && !RowNames(w', k) ensures Blamed(w', k) {
      SameHistoryBinds(s.w, w', k);
    }
  }

  lemma {:induction false} RunDeadBlobs(s: Sys, es: seq<Event>)
    requires Inv(s) && DeadBlobsBlamed(s.w)
    ensures DeadBlobsBlamed(Run(s, es).w)
  {
    if es != [] {
      var t, e := Run(s, es[..|es| - 1]), es[|es| - 1];
      RunDeadBlobs(s, es[..|es| - 1]);
      RunInv(s, es[..|es| - 1]);
      if e.Tick? {
        TickDeadBlobs(t, e.d);
      } else if e.Start? && e.id !in t.ops && Possible(t.w, e.req) {
        BeginDeadBlobs(t, e.id, e.req);
      } else if e.Advance? && e.id in t.ops {
        AdvanceDeadBlobs(t, e.id, e.choice);
      }
    }
  }

  lemma DeadBlobsAreBlamed(s: Sys)
    requires IsReachable(s)
    ensures DeadBlobsBlamed(s.w)
  {
    var now, bcrypt, es :| s == Run(Initial(now, bcrypt), es);
    InitialInv(now, bcrypt);
    RunDeadBlobs(Initial(now, bcrypt), es);
  }

  /**
   A share that is gone leaves no blob behind, except a blob whose own deletion failed and was ignored,
   or a blob of a bucket that a remover listed before its Create was done.
   */
  lemma GoneShareLeavesNoBlob(s: Sys, k: string)
    requires IsReachable(s) && Bound(s.w, k) && Home(k, s.w.tickets[k].use) !in s.w.rows
    ensures k !in s.w.blobs || StoreDeleteFailed(k) in s.w.faults ||
            (s.w.tickets[k].use.ForMember? && ListedMidCreate(s.w.tickets[k].use.bucket) in s.w.faults)
  {
    DeadBlobsAreBlamed(s);
  }

  lemma HolderIsUnbound(w: World, id: nat, op: Op, k: string)
    requires WorldInv(w) && OpInv(w, id, op) && Holds(op, k)
    ensures !Bound(w, k)
  {
    match op
    case UpInsert(_, _) =>
    case Undo(keys) =>
      var i :| 0 <= i < |keys| && keys[i] == k;
      assert UndoFits(w, id, keys[i]);
    case CrWrite(_, _, _, stored) =>
      var i :| 0 <= i < |stored| && KeysOf(stored)[i] == k;
      assert stored[i].key == k;
    case CrAdd(slug, stored, next) =>
      var j :| next <= j < |stored| && stored[j].key == k;
      UnaddedIsUnbound(w, slug, j);
  }
}
