/** Every operation's invariant survives the steps of all other operations. */
module Stability {
  import opened Shares
  import opened Machine
  import opened Invariant

  lemma PrefixTransitive<T>(a: seq<T>, b: seq<T>, c: seq<T>)
    requires a <= b && b <= c
    ensures a <= c
  {
  }

  /** A share's file rows only ever grow at the end, and not at all once its creation is over. */
  lemma OwnedGrows(w: World, w': World, a: nat, r: Ref)
    requires WorldInv(w) && PlanOk(w') && HistoryGrows(w, w', a) && r in w.born
    ensures Owned(w, r) <= Owned(w', r)
    ensures Settled(w, r) ==> Owned(w, r) == Owned(w', r)
  {
    assert BornFits(w, r);
    if r.kind.BucketShare? {
      var b := r.slug;
      assert PlanFits(w, b) && PlanFits(w', b);
      assert w'.plan[b][..w.added[b]] == w.plan[b][..w.added[b]];
    }
  }

  lemma BoundGrows(w: World, w': World, a: nat, k: string)
    requires WorldInv(w) && PlanOk(w') && HistoryGrows(w, w', a) && Bound(w, k)
    ensures Bound(w', k)
  {
    var h := Home(k, w.tickets[k].use);
    OwnedGrows(w, w', a, h);
    var i :| 0 <= i < |Owned(w, h)| && Owned(w, h)[i].key == k;
    assert Owned(w', h)[i].key == k;
  }

  /** An owned key is bound: it was drawn for this very share. */
  lemma OwnedIsBound(w: World, r: Ref, i: nat)
    requires WorldInv(w) && r in w.born && i < |Owned(w, r)|
    ensures var k := Owned(w, r)[i].key; Bound(w, k) && Home(k, w.tickets[k].use) == r
  {
    assert BornFits(w, r);
    if r.kind.BucketShare? {
      assert PlanFits(w, r.slug);
    }
  }

  /** Bytes removed from under a live or dead row never come back. */
  lemma ClearedStays(w: World, w': World, a: nat, k: string)
    requires WorldInv(w) && Guarantee(w, w', a) && Bound(w, k) && Cleared(w, k)
    ensures Cleared(w', k)
  {
  }

  lemma ServingStable(w: World, w': World, a: nat, id: nat,
                      r: Ref, goal: Goal, meta: Meta, files: seq<BFile>, entries: seq<Entry>)
    requires WorldInv(w) && PlanOk(w') && HistoryGrows(w, w', a)
    requires Serving(w, id, r, goal, meta, files, entries)
    ensures Serving(w', id, r, goal, meta, files, entries)
  {
    OwnedGrows(w, w', a, r);
    if !goal.OneFile? { PrefixTransitive(files, Owned(w, r), Owned(w', r)); }
  }

  lemma ItemStable(w: World, w': World, a: nat, why: Why, it: Item)
    requires WorldInv(w) && PlanOk(w') && Guarantee(w, w', a)
    requires ItemFits(w, why, it)
    ensures ItemFits(w', why, it)
  {
    OwnedGrows(w, w', a, it.ref);
    PrefixTransitive(it.files, Owned(w, it.ref), Owned(w', it.ref));
    forall j | 0 <= j < it.pos ensures Cleared(w', it.files[j].key) {
      OwnedIsBound(w, it.ref, j);
      ClearedStays(w, w', a, it.files[j].key);
    }
  }

  lemma SweepStable(w: World, w': World, a: nat, why: Why, items: seq<Item>)
    requires WorldInv(w) && PlanOk(w') && Guarantee(w, w', a)
    requires SweepFits(w, why, items)
    ensures SweepFits(w', why, items)
  {
    forall k | k in why.keys ensures Bound(w', k) && (Cleared(w', k) || Awaits(items, k)) {
      BoundGrows(w, w', a, k);
      if Cleared(w, k) { ClearedStays(w, w', a, k); }
    }
  }

  lemma UndoStable(w: World, w': World, a: nat, id: nat, k: string)
    requires HistoryGrows(w, w', a) && a != id && UndoFits(w, id, k)
    ensures UndoFits(w', id, k)
  {
  }

  /** Other operations never touch the blobs an unfinished creation still answers for. */
  lemma PendingBlobStays(w: World, w': World, a: nat, id: nat, k: string)
    requires WorldInv(w) && Guarantee(w, w', a) && a != id
    requires k in w.tickets && w.tickets[k].op == id && k in w.blobs && !Bound(w, k)
    ensures k in w'.blobs
  {
  }

  lemma CrWriteStable(w: World, w': World, a: nat, id: nat,
                      slug: string, meta: Meta, inputs: seq<Input>, stored: seq<Member>)
    requires WorldInv(w) && Guarantee(w, w', a) && a != id
    requires CrWriteInv(w, id, slug, meta, inputs, stored)
    ensures CrWriteInv(w', id, slug, meta, inputs, stored)
  {
    forall j | 0 <= j < |stored| ensures stored[j].key in w'.blobs {
      assert !Bound(w, stored[j].key);
      PendingBlobStays(w, w', a, id, stored[j].key);
    }
  }

  lemma CrAddStable(w: World, w': World, a: nat, id: nat, slug: string, stored: seq<Member>, next: nat)
    requires WorldInv(w) && Guarantee(w, w', a) && a != id
    requires CrAddInv(w, id, slug, stored, next)
    ensures CrAddInv(w', id, slug, stored, next)
  {
    assert PlanFits(w, slug);
    forall j | next <= j < |stored| ensures stored[j].key in w'.blobs {
      UnaddedIsUnbound(w, slug, j);
      PendingBlobStays(w, w', a, id, stored[j].key);
    }
  }

  /** The member keys whose AddFile has not happened are named by no row. */
  lemma UnaddedIsUnbound(w: World, b: string, j: nat)
    requires WorldInv(w) && b in w.plan && b in w.added && w.added[b] <= j < |w.plan[b]|
    ensures !Bound(w, w.plan[b][j].key)
  {
    assert PlanFits(w, b);
    var k := w.plan[b][j].key;
    assert Home(k, w.tickets[k].use) == Ref(BucketShare, b);
  }

  lemma PurgeStable(w: World, w': World, a: nat, why: Why, items: seq<Item>)
    requires WorldInv(w) && PlanOk(w') && Guarantee(w, w', a)
    requires PurgeInv(w, why, items)
    ensures PurgeInv(w', why, items)
  {
    if why.BySweep? { SweepStable(w, w', a, why, items); }
    forall i | 0 <= i < |items| ensures ItemFits(w', why, items[i]) { ItemStable(w, w', a, why, items[i]); }
  }

  lemma SwFilesStable(w: World, w': World, a: nat, why: Why, todo: seq<Item>, items: seq<Item>)
    requires WorldInv(w) && PlanOk(w') && Guarantee(w, w', a)
    requires SwFilesInv(w, why, todo, items)
    ensures SwFilesInv(w', why, todo, items)
  {
    SweepStable(w, w', a, why, []);
    forall i | 0 <= i < |items| ensures ItemFits(w', why, items[i]) { ItemStable(w, w', a, why, items[i]); }
  }

  lemma ListStable(w: World, w': World, a: nat, r: Ref, files: seq<BFile>)
    requires WorldInv(w) && PlanOk(w') && HistoryGrows(w, w', a)
    requires r in w.born && Lists(w, r, files)
    ensures Lists(w', r, files)
  {
    OwnedGrows(w, w', a, r);
    PrefixTransitive(files, Owned(w, r), Owned(w', r));
  }

  lemma UploadStable(w: World, w': World, a: nat, id: nat, op: Op)
    requires WorldInv(w) && Guarantee(w, w', a) && a != id
    requires op.UpWrite? || op.UpInsert? || op.PasteInsert? || op.Undo?
    requires OpInv(w, id, op)
    ensures OpInv(w', id, op)
  {
    match op
    case UpInsert(slug, _) =>
      assert !Bound(w, slug);
      PendingBlobStays(w, w', a, id, slug);
    case Undo(keys) =>
      forall i | 0 <= i < |keys| ensures UndoFits(w', id, keys[i]) { UndoStable(w, w', a, id, keys[i]); }
    case _ =>
  }

  lemma RdMarkStable(w: World, w': World, a: nat, r: Ref, pw: string, meta: Meta, files: seq<BFile>, at: int)
    requires WorldInv(w) && PlanOk(w') && HistoryGrows(w, w', a)
    requires RdMarkInv(w, r, pw, meta, files, at)
    ensures RdMarkInv(w', r, pw, meta, files, at)
  {
    ListStable(w, w', a, r, files);
  }

  lemma SnapshotStable(w: World, w': World, a: nat, r: Ref, meta: Meta)
    requires HistoryGrows(w, w', a) && Snapshot(w, r, meta)
    ensures Snapshot(w', r, meta)
  {
  }

  lemma CreateStable(w: World, w': World, a: nat, id: nat, op: Op)
    requires WorldInv(w) && Guarantee(w, w', a) && a != id && OpInv(w, id, op)
    requires op.CrWrite? || op.CrAdd?
    ensures OpInv(w', id, op)
  {
    match op
    case CrWrite(slug, meta, inputs, stored) => CrWriteStable(w, w', a, id, slug, meta, inputs, stored);
    case CrAdd(slug, stored, next) => CrAddStable(w, w', a, id, slug, stored, next);
  }

  lemma ReadStable(w: World, w': World, a: nat, id: nat, op: Op)
    requires WorldInv(w) && PlanOk(w') && HistoryGrows(w, w', a) && OpInv(w, id, op)
    requires op.RdCheck? || op.RdMark? || op.RdSend?
    ensures OpInv(w', id, op)
  {
    match op
    case RdCheck(r, _, _, _, files) => ListStable(w, w', a, r, files);
    case RdMark(r, pw, meta, files, at) => RdMarkStable(w, w', a, r, pw, meta, files, at);
    case RdSend(r, goal, meta, files, entries) => ServingStable(w, w', a, id, r, goal, meta, files, entries);
  }

  lemma RemovalStable(w: World, w': World, a: nat, id: nat, op: Op)
    requires WorldInv(w) && PlanOk(w') && Guarantee(w, w', a) && OpInv(w, id, op)
    requires op.SwList? || op.SwFiles? || op.Purge?
    ensures OpInv(w', id, op)
  {
    match op
    case SwList(why) => SweepStable(w, w', a, why, []);
    case SwFiles(why, todo, items) => SwFilesStable(w, w', a, why, todo, items);
    case Purge(why, items) => PurgeStable(w, w', a, why, items);
  }

  /** The rely condition: what `id` knows stays true while any other operation moves. */
  lemma OpStable(w: World, w': World, a: nat, id: nat, op: Op)
    requires WorldInv(w) && PlanOk(w') && Guarantee(w, w', a) && a != id && OpInv(w, id, op)
    ensures OpInv(w', id, op)
  {
    if op.UpWrite? || op.UpInsert? || op.PasteInsert? || op.Undo? {
      UploadStable(w, w', a, id, op);
    } else if op.CrWrite? || op.CrAdd? {
      CreateStable(w, w', a, id, op);
    } else if op.RdFiles? || op.DlFiles? {
      SnapshotStable(w, w', a, op.ref, op.meta);
    } else if op.RdCheck? || op.RdMark? || op.RdSend? {
      ReadStable(w, w', a, id, op);
    } else if op.SwList? || op.SwFiles? || op.Purge? {
      RemovalStable(w, w', a, id, op);
    } else if op.Done? {
      DoneStable(w, w', a, id, op.outcome);
    }
  }

  lemma DoneStable(w: World, w': World, a: nat, id: nat, o: Outcome)
    requires WorldInv(w) && PlanOk(w') && Guarantee(w, w', a)
    requires DoneInv(w, id, o)
    ensures DoneInv(w', id, o)
  {
    match o
    case Accepted(r, _, files) => ListStable(w, w', a, r, files);
    case Sent(r, goal, meta, files, entries) => ServingStable(w, w', a, id, r, goal, meta, files, entries);
    case Broken(r, goal, meta, files, entries) => ServingStable(w, w', a, id, r, goal, meta, files, entries);
    case Swept(listed, keys) => SweepStable(w, w', a, BySweep(PasteShare, w.now, listed, keys), []);
    case _ =>
  }
}
