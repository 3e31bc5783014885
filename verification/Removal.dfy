/** Who may remove a row, and what a sweep achieves. */
module Removal {
  import opened Shares
  import opened Machine
  import opened Invariant
  import opened Reachable
  import opened Delivery
  import Expiry

  /** Operation `op` is about to delete the row of r, on good authority. */
  ghost predicate MayRemove(w: World, op: Op, r: Ref)
    requires r in w.rows
  {
    && op.Purge? && op.items != [] && op.items[0].ref == r
    && match op.why
       case BySecret(secret) => secret == w.rows[r].meta.secret
       case BySweep(_, at, _, _) => at <= w.now && Expiry.Sweepable(w.rows[r].meta.expires, at)
  }

  lemma CreationKeepsRows(w: World, id: nat, op: Op, c: Choice, r: Ref)
    requires Creates(op) && r in w.rows
    ensures r in CreationStep(w, id, op, c).0.rows
  {
    CreationMarksNothing(w, id, op, c, r);
  }

  lemma ReadKeepsRows(w: World, id: nat, op: Op, c: Choice, r: Ref)
    requires Reads(op) && r in w.rows
    ensures r in ReadStep(w, id, op, c).0.rows
  {
  }

  lemma PurgerMayRemove(w: World, id: nat, op: Op, r: Ref)
    requires OpInv(w, id, op) && op.Purge? && op.items != [] && op.items[0].ref == r
    requires RowsOk(w) && r in w.rows
    ensures MayRemove(w, op, r)
  {
    assert ItemFits(w, op.why, op.items[0]);
  }

  lemma StepRemovesWithAuthority(w: World, id: nat, op: Op, c: Choice, r: Ref)
    requires RowsOk(w) && OpInv(w, id, op) && r in w.rows && r !in StepOp(w, id, op, c).0.rows
    ensures MayRemove(w, op, r)
  {
    if op.Done? {
    } else if Creates(op) {
      CreationKeepsRows(w, id, op, c, r);
    } else if Reads(op) {
      ReadKeepsRows(w, id, op, c, r);
    } else {
      RemovalRows(w, op, c);
      PurgerMayRemove(w, id, op, r);
    }
  }

  /**
   A row disappears in one way only: in the row deletion of an operation that presented that row's
   own delete secret, or of a sweep that had listed it after its expiry.
   */
  lemma RowLossIsAuthorized(s: Sys, e: Event, r: Ref)
    requires Inv(s) && r in s.w.rows && r !in Step(s, e).w.rows
    ensures e.Advance? && e.id in s.ops && MayRemove(s.w, s.ops[e.id], r)
  {
    if e.Advance? && e.id in s.ops {
      assert OpInv(s.w, e.id, s.ops[e.id]);
      StepRemovesWithAuthority(s.w, e.id, s.ops[e.id], e.choice, r);
    } else {
      OtherEventsKeepRows(s, e);
    }
  }

  /** Event number n of the run takes the row of r away, on good authority. */
  ghost predicate RemovedAt(s0: Sys, es: seq<Event>, n: nat, r: Ref)
    requires n < |es|
  {
    var s := Run(s0, es[..n]);
    && r in s.w.rows && r !in Step(s, es[n]).w.rows
    && es[n].Advance? && es[n].id in s.ops && MayRemove(s.w, s.ops[es[n].id], r)
  }

  lemma LostInEvent(s0: Sys, es: seq<Event>, r: Ref)
    requires Inv(s0) && es != [] && r in Run(s0, es[..|es| - 1]).w.rows && r !in Run(s0, es).w.rows
    ensures RemovedAt(s0, es, |es| - 1, r)
  {
    RunInv(s0, es[..|es| - 1]);
    RowLossIsAuthorized(Run(s0, es[..|es| - 1]), es[|es| - 1], r);
  }

  lemma RemovedBefore(s0: Sys, es: seq<Event>, k: nat, n: nat, r: Ref)
    requires n < k <= |es| && RemovedAt(s0, es[..k], n, r)
    ensures RemovedAt(s0, es, n, r)
  {
    assert es[..k][..n] == es[..n];
  }

  /** Over whole runs: a row that has gone was taken away by one authorised deletion in between. */
  lemma {:induction false} LostRowsWereRemoved(s0: Sys, es: seq<Event>, m: nat, r: Ref)
    requires Inv(s0) && m <= |es| && r in Run(s0, es[..m]).w.rows && r !in Run(s0, es).w.rows
    ensures exists n :: m <= n < |es| && RemovedAt(s0, es, n, r)
    decreases |es|
  {
    assert es[..|es|] == es;
    if m < |es| {
      var k := |es| - 1;
      if r in Run(s0, es[..k]).w.rows {
        LostInEvent(s0, es, r);
      } else {
        assert es[..k][..m] == es[..m];
        LostRowsWereRemoved(s0, es[..k], m, r);
        var n :| m <= n < k && RemovedAt(s0, es[..k], n, r);
        RemovedBefore(s0, es, k, n, r);
      }
    }
  }

  /** A removed share never comes back. */
  lemma {:induction false} GoneForever(s: Sys, es: seq<Event>, r: Ref)
    requires Inv(s) && r in s.w.born && r !in s.w.rows
    ensures r !in Run(s, es).w.rows
  {
    if es != [] {
      GoneForever(s, es[..|es| - 1], r);
      BornForever(s, es[..|es| - 1], r);
      RunInv(s, es[..|es| - 1]);
      EventGuarantee(Run(s, es[..|es| - 1]), es[|es| - 1]);
    }
  }

  /* ---------- bucket files ---------- */

  lemma CreationKeepsFiles(w: World, id: nat, op: Op, c: Choice, row: BRow)
    requires Creates(op) && row in w.bfiles
    ensures row in CreationStep(w, id, op, c).0.bfiles
  {
  }

  lemma ReadKeepsFiles(w: World, id: nat, op: Op, c: Choice)
    requires Reads(op)
    ensures ReadStep(w, id, op, c).0.bfiles == w.bfiles
  {
  }

  /** Bucket file rows disappear only together with their bucket's row. */
  lemma FilesLeaveWithBucket(s: Sys, e: Event, row: BRow)
    requires Inv(s) && row in s.w.bfiles && row !in Step(s, e).w.bfiles
    ensures Ref(BucketShare, row.bucket) in s.w.rows && Ref(BucketShare, row.bucket) !in Step(s, e).w.rows
  {
    BucketOfRowLives(s.w, row);
    if e.Advance? && e.id in s.ops {
      StepFilesLeave(s.w, e.id, s.ops[e.id], e.choice, row);
    } else {
      OtherEventsKeepRows(s, e);
    }
  }

  lemma BucketOfRowLives(w: World, row: BRow)
    requires TableOk(w) && row in w.bfiles
    ensures Ref(BucketShare, row.bucket) in w.rows
  {
    FilesOfMembers(w.bfiles, row.bucket, row.file);
    assert ListOk(w, row.bucket);
  }

  lemma StepFilesLeave(w: World, id: nat, op: Op, c: Choice, row: BRow)
    requires row in w.bfiles && row !in StepOp(w, id, op, c).0.bfiles
    ensures Ref(BucketShare, row.bucket) !in StepOp(w, id, op, c).0.rows
  {
    if op.Done? {
    } else if Creates(op) {
      CreationKeepsFiles(w, id, op, c, row);
    } else if Reads(op) {
      ReadKeepsFiles(w, id, op, c);
    } else {
      RemovalRows(w, op, c);
      if op.Purge? && op.items != [] { DropKeepsRows(w.bfiles, op.items[0].ref.slug, row); }
    }
  }

  /* ---------- the sweep ---------- */

  /**
   Safety.  When a sweep takes a row away, every service read of that share at that moment, or at
   any later one, is refused as expired, whatever its password and goal.
   */
  lemma SweepTakesOnlyRefused(s: Sys, e: Event, r: Ref, later: World, pw: string, goal: Goal, files: seq<BFile>)
    requires Inv(s) && r in s.w.rows && r !in Step(s, e).w.rows
    requires e.Advance? && e.id in s.ops && s.ops[e.id].Purge? && s.ops[e.id].why.BySweep?
    requires s.w.now <= later.now
    ensures Check(later, r, pw, goal, s.w.rows[r].meta, files) == Done(LapsedShare)
  {
    RowLossIsAuthorized(s, e, r);
    Expiry.SweepableIsLapsed(s.w.rows[r].meta.expires, s.ops[e.id].why.at, later.now);
  }
}
