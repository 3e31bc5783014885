/** A finished sweep has been through all three kinds, and has taken what was expired when it began. */
module FullSweep {
  import opened Wrappers
  import opened Shares
  import opened Machine
  import opened Invariant
  import opened Reachable
  import opened Delivery
  import opened Removal
  import opened Sweeps
  import Expiry

  /** Files come before buckets, and buckets before pastes. */
  predicate Before(a: Kind, b: Kind) {
    (a.FileShare? && !b.FileShare?) || (a.BucketShare? && b.PasteShare?)
  }

  /** The sweep has its answer to the listing of this kind: it is at the kind's shares, or past them. */
  predicate Past(op: Op, kind: Kind) {
    match op
    case SwList(why) => why.BySweep? && Before(kind, why.kind)
    case SwFiles(why, _, _) => why.BySweep? && (kind == why.kind || Before(kind, why.kind))
    case Purge(why, _) => why.BySweep? && (kind == why.kind || Before(kind, why.kind))
    case Done(Swept(_, _)) => true
    case _ => false
  }

  /** With choice c the listing of this kind is answered: by a failure, or by exactly the expired rows. */
  ghost predicate Answers(w: World, op: Op, c: Choice, kind: Kind) {
    && op.SwList? && op.why.BySweep? && op.why.kind == kind
    && (c.Order? ==> ListsExpired(w, kind, c.refs))
  }

  lemma ListPasses(w: World, why: Why, c: Choice, kind: Kind)
    requires why.BySweep? && Past(SweepListStep(w, why, c), kind) && !Past(SwList(why), kind)
    ensures Answers(w, SwList(why), c, kind)
  {
  }

  lemma FilesPass(w: World, why: Why, todo: seq<Item>, items: seq<Item>, c: Choice, kind: Kind)
    requires why.BySweep? && Past(SweepFilesStep(w, why, todo, items, c).1, kind)
    ensures Past(SwFiles(why, todo, items), kind)
  {
  }

  lemma PurgePasses(w: World, why: Why, items: seq<Item>, c: Choice, kind: Kind)
    requires Past(PurgeStep(w, why, items, c).1, kind)
    ensures Past(Purge(why, items), kind)
  {
  }

  lemma DeletePassesNothing(w: World, op: Op, c: Choice, kind: Kind)
    requires op.DlRow? || op.DlFiles?
    ensures !Past(DeleteStep(w, op, c).1, kind)
  {
  }

  lemma OthersPassNothing(w: World, id: nat, op: Op, c: Choice, kind: Kind)
    requires Creates(op) || Reads(op)
    ensures !Past(if Creates(op) then CreationStep(w, id, op, c).1 else ReadStep(w, id, op, c).1, kind)
  {
  }

  /** A kind is passed in no other way than by an answer to its listing. */
  lemma StepPasses(w: World, id: nat, op: Op, c: Choice, kind: Kind)
    requires Past(StepOp(w, id, op, c).1, kind) && !Past(op, kind)
    ensures Answers(w, op, c, kind)
  {
    if Creates(op) || Reads(op) {
      OthersPassNothing(w, id, op, c, kind);
    } else if op.DlRow? || op.DlFiles? {
      DeletePassesNothing(w, op, c, kind);
    } else if op.Purge? {
      PurgePasses(w, op.why, op.items, c, kind);
    } else if op.SwFiles? && op.why.BySweep? {
      FilesPass(w, op.why, op.todo, op.items, c, kind);
    } else if op.SwList? && op.why.BySweep? {
      ListPasses(w, op.why, c, kind);
    }
  }

  /** In event n operation id gets the answer to its listing of this kind. */
  ghost predicate ListedAt(s0: Sys, es: seq<Event>, n: nat, id: nat, kind: Kind)
    requires n < |es|
  {
    var s := Run(s0, es[..n]);
    es[n].Advance? && es[n].id == id && id in s.ops && Answers(s.w, s.ops[id], es[n].choice, kind)
  }

  ghost predicate WasListed(s0: Sys, es: seq<Event>, id: nat, kind: Kind) {
    exists n :: 0 <= n < |es| && ListedAt(s0, es, n, id, kind)
  }

  lemma ListedBefore(s0: Sys, es: seq<Event>, id: nat, kind: Kind)
    requires es != [] && WasListed(s0, es[..|es| - 1], id, kind)
    ensures WasListed(s0, es, id, kind)
  {
    var p := |es| - 1;
    var n :| 0 <= n < p && ListedAt(s0, es[..p], n, id, kind);
    assert es[..p][..n] == es[..n];
    assert ListedAt(s0, es, n, id, kind);
  }

  lemma BeginPassesNothing(w: World, id: nat, req: Request, kind: Kind)
    requires Possible(w, req)
    ensures !Past(Begin(w, id, req).1, kind)
  {
  }

  lemma {:induction false} PastWasListed(s0: Sys, es: seq<Event>, id: nat, kind: Kind)
    requires id !in s0.ops && id in Run(s0, es).ops && Past(Run(s0, es).ops[id], kind)
    ensures WasListed(s0, es, id, kind)
  {
    var n := |es| - 1;
    var s := Run(s0, es[..n]);
    if id in s.ops && Past(s.ops[id], kind) {
      PastWasListed(s0, es[..n], id, kind);
      ListedBefore(s0, es, id, kind);
    } else if id in s.ops {
      StepPasses(s.w, id, s.ops[id], es[n].choice, kind);
      assert ListedAt(s0, es, n, id, kind);
    } else {
      BeginPassesNothing(s.w, id, es[n].req, kind);
    }
  }

  /** Every finished sweep has had an answer to its listing of the files, of the buckets and of the pastes. */
  lemma FinishedSweepsListAll(s0: Sys, es: seq<Event>, id: nat, kind: Kind)
    requires id !in s0.ops && id in Run(s0, es).ops
    requires Run(s0, es).ops[id].Done? && Run(s0, es).ops[id].outcome.Swept?
    ensures WasListed(s0, es, id, kind)
  {
    PastWasListed(s0, es, id, kind);
  }

  /* ---------- what was expired when the sweep began ---------- */

  /** The sweep's listing of this kind does not fail. */
  ghost predicate ListingSucceeds(s0: Sys, es: seq<Event>, id: nat, kind: Kind) {
    forall n | 0 <= n < |es| && es[n].Advance? && es[n].id == id ::
      id in Run(s0, es[..n]).ops ==> !FailsListing(Run(s0, es[..n]).ops[id], es[n].choice, kind)
  }

  predicate FailsListing(op: Op, c: Choice, kind: Kind) {
    op.SwList? && op.why.BySweep? && op.why.kind == kind && !c.Order?
  }

  lemma {:induction false} OpsStay(s0: Sys, es: seq<Event>, m: nat, n: nat, id: nat)
    requires m <= n <= |es| && id in Run(s0, es[..m]).ops
    ensures id in Run(s0, es[..n]).ops
  {
    if m < n {
      assert es[..n][..n - 1] == es[..n - 1];
      OpsStay(s0, es, m, n - 1, id);
    }
  }

  lemma {:induction false} ClockRuns(s: Sys, es: seq<Event>)
    requires Inv(s)
    ensures s.w.now <= Run(s, es).w.now
  {
    if es != [] {
      ClockRuns(s, es[..|es| - 1]);
      RunInv(s, es[..|es| - 1]);
      EventGuarantee(Run(s, es[..|es| - 1]), es[|es| - 1]);
    }
  }

  /** A live row that could be swept earlier is the same row and can be swept now. */
  lemma StaysSweepable(s0: Sys, es: seq<Event>, m: nat, n: nat, r: Ref)
    requires Inv(s0) && m <= n <= |es|
    requires var s := Run(s0, es[..m]); r in s.w.rows && Expiry.Sweepable(s.w.rows[r].meta.expires, s.w.now)
    ensures var t := Run(s0, es[..n]); r in t.w.rows ==> Expiry.Sweepable(t.w.rows[r].meta.expires, t.w.now)
    ensures r in Run(s0, es[..n]).w.born
  {
    var s := Run(s0, es[..m]);
    RunInv(s0, es[..m]);
    RunInv(s0, es[..n]);
    RunSplits(s0, es, m, n);
    BornForever(s, es[m..n], r);
    ClockRuns(s, es[m..n]);
    LiveIsBorn(s, r);
    var t := Run(s0, es[..n]);
    if r in t.w.rows {
      LiveIsBorn(t, r);
      Expiry.SweepableIsLapsed(s.w.rows[r].meta.expires, s.w.now, t.w.now);
    }
  }

  lemma LiveIsBorn(s: Sys, r: Ref)
    requires Inv(s) && r in s.w.rows
    ensures r in s.w.born && s.w.rows[r].meta == s.w.born[r]
  {
  }

  lemma ListingShare(s0: Sys, es: seq<Event>, n: nat, id: nat, r: Ref)
    requires n < |es| && ListedAt(s0, es, n, id, r.kind) && es[n].choice.Order?
    requires var t := Run(s0, es[..n]); r in t.w.rows && Expiry.Sweepable(t.w.rows[r].meta.expires, t.w.now)
    ensures ListsShare(s0, es, n, id, r)
  {
  }

  lemma QueriesLater(s0: Sys, es: seq<Event>, id: nat, r: Ref, n: nat)
    requires QueriesSucceedFor(s0, es, 0, id, r)
    ensures QueriesSucceedFor(s0, es, n, id, r)
  {
  }

  /** Gone at some point of a run, gone at its end. */
  lemma GoneLater(s0: Sys, es: seq<Event>, n: nat, r: Ref)
    requires Inv(s0) && n <= |es| && r in Run(s0, es[..n]).w.born && r !in Run(s0, es[..n]).w.rows
    ensures r !in Run(s0, es).w.rows
  {
    RunInv(s0, es[..n]);
    assert es[..|es|] == es;
    RunSplits(s0, es, n, |es|);
    GoneForever(Run(s0, es[..n]), es[n..], r);
  }

  /**
   The sweep, on its request.  A sweep requested at event m, once done, leaves no row that could be swept
   when it was requested, of any kind, unless its own listing of that kind, its own file queries for a
   bucket, or its own deletion of that very row failed.
   */
  lemma SweepTakesWhatWasExpired(s0: Sys, es: seq<Event>, m: nat, id: nat, r: Ref)
    requires Inv(s0) && id !in s0.ops && m < |es| && es[m] == Start(id, Sweep) && id !in Run(s0, es[..m]).ops
    requires var s := Run(s0, es[..m]); r in s.w.rows && Expiry.Sweepable(s.w.rows[r].meta.expires, s.w.now)
    requires var t := Run(s0, es); id in t.ops && t.ops[id].Done? && t.ops[id].outcome.Swept?
    requires ListingSucceeds(s0, es, id, r.kind) && QueriesSucceedFor(s0, es, 0, id, r)
    requires RowCallsSucceed(s0, es, id, r)
    ensures r !in Run(s0, es).w.rows
  {
    FinishedSweepsListAll(s0, es, id, r.kind);
    var n :| 0 <= n < |es| && ListedAt(s0, es, n, id, r.kind);
    if n <= m { OpsStay(s0, es, n, m, id); }
    StaysSweepable(s0, es, m, n, r);
    assert es[n].choice.Order?;
    if r in Run(s0, es[..n]).w.rows {
      ListingShare(s0, es, n, id, r);
      QueriesLater(s0, es, id, r, n + 1);
      SweepTakesAllExpired(s0, es, n, id, r);
    } else {
      GoneLater(s0, es, n, r);
    }
  }
}
