/**
 Requests served alone, from their arrival to their answer: what the machine does with a request is what
 the answer functions, and so the methods of `Server`, say for that very request.
 */
module SoloRequests {
  import opened Wrappers
  import opened Images
  import opened Shares
  import opened Machine
  import opened Batches
  import opened Answers
  import opened Solo
  import opened Requests
  import opened Delivery
  import Expiry

  /** One event per choice, all of operation id. */
  function Advances(id: nat, cs: seq<Choice>): (es: seq<Event>)
    ensures |es| == |cs| && forall i :: 0 <= i < |cs| ==> es[i] == Advance(id, cs[i])
  {
    seq(|cs|, i requires 0 <= i < |cs| => Advance(id, cs[i]))
  }

  /** The state after the request arrives as operation id and that operation alone makes these choices. */
  function Served(s: Sys, id: nat, req: Request, cs: seq<Choice>): Sys {
    Run(Step(s, Start(id, req)), Advances(id, cs))
  }

  /** The request is answered, and tables and store are as the answer says. */
  predicate Answered(t: Sys, id: nat, answer: (World, Outcome)) {
    && id in t.ops && t.ops[id] == Done(answer.1)
    && SameTables(t.w, answer.0.rows, answer.0.bfiles, answer.0.nextId, answer.0.blobs)
  }

  lemma ServedIsRunOp(s: Sys, id: nat, req: Request, cs: seq<Choice>)
    requires id !in s.ops && Possible(s.w, req)
    ensures var begun := Begin(s.w, id, req); var t := Served(s, id, req, cs);
            var next := RunOp(begun.0, id, begun.1, cs);
            t.w == next.0 && id in t.ops && t.ops[id] == next.1
  {
    var s1 := Step(s, Start(id, req));
    SoloIsARun(s1, id, cs);
    assert Advances(id, cs) == seq(|cs|, i requires 0 <= i < |cs| => Advance(id, cs[i]));
  }

  /* ---------- creations ---------- */

  /** A request that fails local validation is refused at once, with no trace. */
  lemma InvalidIsRejected(s: Sys, id: nat, req: Request)
    requires id !in s.ops && Possible(s.w, req) && Creating(req) && !Valid(req)
    ensures Step(s, Start(id, req)) == Sys(s.w, s.ops[id := Done(Rejected)])
  {
  }

  lemma BeginUpload(w: World, id: nat, req: Request) returns (meta: Meta)
    requires Possible(w, req) && req.Upload? && Valid(req)
    ensures Describes(meta, req, w.now)
    ensures var begun := Begin(w, id, req);
            begun.1 == UpWrite(req.slug, meta, req.body) && SameTables(begun.0, w.rows, w.bfiles, w.nextId, w.blobs)
  {
    Expiry.DeadlineHonours(req.expiry, w.now);
    meta := Begin(w, id, req).1.meta;
  }

  lemma UploadServed(s: Sys, id: nat, req: Request, writeOk: bool, insertOk: bool, undoOk: bool) returns (meta: Meta)
    requires id !in s.ops && Possible(s.w, req) && req.Upload? && Valid(req)
    ensures Describes(meta, req, s.w.now)
    ensures Answered(Served(s, id, req, [Fate(writeOk)] + [Fate(insertOk), Fate(undoOk)]), id,
                     FileCreate(s.w, req.slug, meta, req.body, writeOk, insertOk, undoOk))
  {
    meta := BeginUpload(s.w, id, req);
    ServedIsRunOp(s, id, req, [Fate(writeOk)] + [Fate(insertOk), Fate(undoOk)]);
    SoloFileCreate(Begin(s.w, id, req).0, id, req.slug, meta, req.body, writeOk, insertOk, undoOk);
  }

  lemma BeginPaste(w: World, id: nat, req: Request) returns (meta: Meta)
    requires Possible(w, req) && req.NewPaste? && Valid(req)
    ensures Describes(meta, req, w.now)
    ensures var begun := Begin(w, id, req);
            begun.1 == PasteInsert(req.slug, meta) && SameTables(begun.0, w.rows, w.bfiles, w.nextId, w.blobs)
  {
    Expiry.DeadlineHonours(req.expiry, w.now);
    meta := Begin(w, id, req).1.meta;
  }

  lemma PasteServed(s: Sys, id: nat, req: Request, insertOk: bool) returns (meta: Meta)
    requires id !in s.ops && Possible(s.w, req) && req.NewPaste? && Valid(req)
    ensures Describes(meta, req, s.w.now)
    ensures Answered(Served(s, id, req, [Fate(insertOk)]), id, PasteCreate(s.w, req.slug, meta, insertOk))
  {
    meta := BeginPaste(s.w, id, req);
    ServedIsRunOp(s, id, req, [Fate(insertOk)]);
    SoloPasteCreate(Begin(s.w, id, req).0, id, req.slug, meta, insertOk);
  }

  lemma BeginBucket(w: World, id: nat, req: Request) returns (meta: Meta)
    requires Possible(w, req) && req.NewBucket? && Valid(req)
    ensures Describes(meta, req, w.now)
    ensures var begun := Begin(w, id, req);
            && begun.1 == CrWrite(req.slug, meta, req.inputs, [])
            && SameTables(begun.0, w.rows, w.bfiles, w.nextId, w.blobs)
            && begun.0.tickets.Keys == w.tickets.Keys + {req.slug}
  {
    Expiry.DeadlineHonours(req.expiry, w.now);
    meta := Begin(w, id, req).1.meta;
  }

  /** The generator gives none of these draws the slug it gave the bucket. */
  predicate DrawsAvoid(draws: seq<Option<string>>, slug: string) {
    forall i :: 0 <= i < |draws| ==> draws[i] != Some(slug)
  }

  lemma BucketServed(s: Sys, id: nat, req: Request, calls: CreateCalls) returns (meta: Meta)
    requires id !in s.ops && Possible(s.w, req) && req.NewBucket? && Valid(req)
    requires calls.Cover(|req.inputs|) && FreshDraws(s.w, calls.draws, 0) && DrawsAvoid(calls.draws, req.slug)
    requires Ref(BucketShare, req.slug) !in s.w.rows
    ensures Describes(meta, req, s.w.now)
    ensures Answered(Served(s, id, req, CreateChoices(|req.inputs|, calls)), id,
                     BucketCreate(s.w, req.slug, meta, req.inputs, calls))
  {
    meta := BeginBucket(s.w, id, req);
    var w := Begin(s.w, id, req).0;
    ServedIsRunOp(s, id, req, CreateChoices(|req.inputs|, calls));
    SoloCreate(w, id, req.slug, meta, req.inputs, calls);
    SameCreate(s.w, w, req.slug, meta, req.inputs, calls);
  }

  lemma SameCreate(w: World, w': World, slug: string, meta: Meta, inputs: seq<Input>, calls: CreateCalls)
    requires calls.Cover(|inputs|) && SameTables(w', w.rows, w.bfiles, w.nextId, w.blobs)
    requires Ref(BucketShare, slug) !in w.rows
    ensures var a, b := BucketCreate(w, slug, meta, inputs, calls), BucketCreate(w', slug, meta, inputs, calls);
            a.1 == b.1 && SameTables(b.0, a.0.rows, a.0.bfiles, a.0.nextId, a.0.blobs)
  {
    if Prefix(calls.draws, |inputs|) < |inputs| || !calls.insertOk {
      CreateUndone(w, slug, meta, inputs, calls);
      CreateUndone(w', slug, meta, inputs, calls);
    } else {
      CreateAdds(w, slug, meta, inputs, calls);
      CreateAdds(w', slug, meta, inputs, calls);
    }
  }

  /* ---------- reads and removals ---------- */

  lemma ContentServed(s: Sys, id: nat, r: Ref, pw: string, rowOk: bool, filesOk: bool, mark: Choice, readOk: seq<bool>)
    requires id !in s.ops && CoversFiles(s.w, r, readOk) && (r.kind.BucketShare? || filesOk)
    ensures Answered(Served(s, id, Read(r, pw, Fetch), ContentChoices(s.w, r, rowOk, filesOk, mark, readOk)), id,
                     ContentGet(s.w, r, pw, rowOk, filesOk, mark, readOk))
  {
    ServedIsRunOp(s, id, Read(r, pw, Fetch), ContentChoices(s.w, r, rowOk, filesOk, mark, readOk));
    SoloContent(s.w, id, r, pw, rowOk, filesOk, mark, readOk);
  }

  lemma OneFileServed(s: Sys, id: nat, slug: string, pw: string, key: string, rowOk: bool, filesOk: bool, readOk: bool)
    requires id !in s.ops
    ensures Answered(Served(s, id, Read(Ref(BucketShare, slug), pw, OneFile(key)),
                            LookupChoices(Ref(BucketShare, slug), rowOk, filesOk) +
                            ([Succeed] + (Fates([readOk], 1) + [Succeed]))), id,
                     (s.w, OneFileGet(s.w, slug, pw, key, rowOk, filesOk, readOk)))
  {
    var early := LookupChoices(Ref(BucketShare, slug), rowOk, filesOk);
    ServedIsRunOp(s, id, Read(Ref(BucketShare, slug), pw, OneFile(key)),
                  early + ([Succeed] + (Fates([readOk], 1) + [Succeed])));
    SoloOneFile(s.w, id, slug, pw, key, rowOk, filesOk, readOk);
  }

  lemma MetaServed(s: Sys, id: nat, r: Ref, pw: string, rowOk: bool, filesOk: bool)
    requires id !in s.ops && !r.kind.PasteShare? && (r.kind.BucketShare? || filesOk)
    ensures Answered(Served(s, id, Read(r, pw, MetaOnly), LookupChoices(r, rowOk, filesOk) + [Succeed]), id,
                     (s.w, MetaGet(s.w, r, pw, rowOk, filesOk)))
  {
    ServedIsRunOp(s, id, Read(r, pw, MetaOnly), LookupChoices(r, rowOk, filesOk) + [Succeed]);
    SoloMeta(s.w, id, r, pw, rowOk, filesOk);
  }

  lemma FileDeleteServed(s: Sys, id: nat, slug: string, secret: string, rowOk: bool, blobOk: bool, deleteOk: bool)
    requires id !in s.ops
    ensures Answered(Served(s, id, Delete(Ref(FileShare, slug), secret),
                            [Fate(rowOk)] + [Fate(blobOk), Fate(deleteOk)]), id,
                     FileDelete(s.w, slug, secret, rowOk, blobOk, deleteOk))
  {
    ServedIsRunOp(s, id, Delete(Ref(FileShare, slug), secret), [Fate(rowOk)] + [Fate(blobOk), Fate(deleteOk)]);
    SoloFileDelete(s.w, id, slug, secret, rowOk, blobOk, deleteOk);
  }

  lemma PasteDeleteServed(s: Sys, id: nat, slug: string, secret: string, rowOk: bool, deleteOk: bool)
    requires id !in s.ops
    ensures Answered(Served(s, id, Delete(Ref(PasteShare, slug), secret), [Fate(rowOk)] + [Fate(deleteOk)]), id,
                     PasteDelete(s.w, slug, secret, rowOk, deleteOk))
  {
    ServedIsRunOp(s, id, Delete(Ref(PasteShare, slug), secret), [Fate(rowOk)] + [Fate(deleteOk)]);
    SoloPasteDelete(s.w, id, slug, secret, rowOk, deleteOk);
  }

  lemma BucketDeleteServed(s: Sys, id: nat, slug: string, secret: string, rowOk: bool, filesOk: bool, blobOk: seq<bool>,
                           deleteOk: bool)
    requires id !in s.ops && |blobOk| >= |FilesOf(s.w.bfiles, slug)|
    ensures var n := |FilesOf(s.w.bfiles, slug)|;
            Answered(Served(s, id, Delete(Ref(BucketShare, slug), secret),
                            [Fate(rowOk)] + ([Fate(filesOk)] + (Fates(blobOk, n) + [Fate(deleteOk)]))), id,
                     BucketDelete(s.w, slug, secret, rowOk, filesOk, blobOk, deleteOk))
  {
    var n := |FilesOf(s.w.bfiles, slug)|;
    ServedIsRunOp(s, id, Delete(Ref(BucketShare, slug), secret),
                  [Fate(rowOk)] + ([Fate(filesOk)] + (Fates(blobOk, n) + [Fate(deleteOk)])));
    SoloBucketDelete(s.w, id, slug, secret, rowOk, filesOk, blobOk, deleteOk);
  }

  /* ---------- the sweep ---------- */

  lemma CreationKeepsClock(w: World, id: nat, op: Op, c: Choice)
    requires Creates(op)
    ensures CreationStep(w, id, op, c).0.now == w.now
  {
    match op
    case CrAdd(slug, stored, next) => AddKeepsClock(w, slug, stored, next, c);
    case _ =>
  }

  lemma AddKeepsClock(w: World, slug: string, stored: seq<Member>, next: nat, c: Choice)
    ensures AddStep(w, slug, stored, next, c).0.now == w.now
  {
  }

  lemma ReadKeepsClock(w: World, id: nat, op: Op, c: Choice)
    requires Reads(op)
    ensures ReadStep(w, id, op, c).0.now == w.now
  {
  }

  lemma PurgeKeepsClock(w: World, why: Why, items: seq<Item>, c: Choice)
    ensures PurgeStep(w, why, items, c).0.now == w.now
  {
    if items != [] {
      if items[0].pos < |items[0].files| {
        BlobPurgeKeepsClock(w, why, items, c);
      } else {
        RowDeletionRows(w, why, items, c);
      }
    }
  }

  lemma BlobPurgeKeepsClock(w: World, why: Why, items: seq<Item>, c: Choice)
    requires items != [] && items[0].pos < |items[0].files|
    ensures PurgeBlob(w, why, items, c).0.now == w.now
  {
  }

  lemma ListKeepsClock(w: World, op: Op, c: Choice)
    requires Removes(op) && !op.Purge?
    ensures RemovalStep(w, op, c).0.now == w.now
  {
  }

  /** Only a tick moves the clock. */
  lemma StepKeepsClock(w: World, id: nat, op: Op, c: Choice)
    ensures StepOp(w, id, op, c).0.now == w.now
  {
    if Creates(op) {
      CreationKeepsClock(w, id, op, c);
    } else if Reads(op) {
      ReadKeepsClock(w, id, op, c);
    } else if op.Purge? {
      PurgeKeepsClock(w, op.why, op.items, c);
    } else if Removes(op) {
      ListKeepsClock(w, op, c);
    }
  }

  lemma {:induction false} RunOpKeepsClock(w: World, id: nat, op: Op, cs: seq<Choice>)
    ensures RunOp(w, id, op, cs).0.now == w.now
  {
    if cs != [] {
      var before := RunOp(w, id, op, cs[..|cs| - 1]);
      RunOpKeepsClock(w, id, op, cs[..|cs| - 1]);
      StepKeepsClock(before.0, id, before.1, cs[|cs| - 1]);
    }
  }

  /** All the choices of one pass: its listing, then one per listed blob and row. */
  ghost function PassChoices(w: World, kind: Kind, calls: PassCalls, l: Listing): seq<Choice>
    requires Listed(w, kind, true, l) && calls.Fit(l)
  {
    ItemsAreListed(w, kind, calls, l);
    var items := ItemsOf(w, kind, l.refs);
    ListChoices(kind, l.refs) + SweepFates(items, calls.blobOk, calls.deleteOk, |items|)
  }

  /** The operation is about to list this kind, in a world whose tables, store and clock are those of w. */
  predicate Lists(m: (World, Op), w: World, kind: Kind) {
    && SameTables(m.0, w.rows, w.bfiles, w.nextId, w.blobs) && m.0.now == w.now
    && m.1.SwList? && m.1.why.BySweep? && m.1.why.kind == kind
  }

  lemma SameListing(m: World, w: World, kind: Kind, l: Listing)
    requires SameTables(m, w.rows, w.bfiles, w.nextId, w.blobs) && m.now == w.now && Listed(w, kind, true, l)
    ensures Listed(m, kind, true, l)
    ensures ItemsOf(m, kind, l.refs) == ItemsOf(w, kind, l.refs)
  {
  }

  /** One pass, and where the sweep stands after it. */
  lemma PassServed(m: (World, Op), id: nat, w: World, kind: Kind, calls: PassCalls, l: Listing)
    requires Lists(m, w, kind) && Listed(w, kind, true, l) && calls.Fit(l)
    ensures var next := RunOp(m.0, id, m.1, PassChoices(w, kind, calls, l)); var w' := AfterPass(w, calls, l);
            && SameTables(next.0, w'.rows, w'.bfiles, w'.nextId, w'.blobs) && next.0.now == w'.now
            && (kind.FileShare? ==> Lists(next, w', BucketShare))
            && (kind.BucketShare? ==> Lists(next, w', PasteShare))
            && (kind.PasteShare? ==> next.1.Done? && next.1.outcome.Swept?)
  {
    SameListing(m.0, w, kind, l);
    SoloPass(m.0, id, m.1.why, calls, l);
    RunOpKeepsClock(m.0, id, m.1, PassChoices(w, kind, calls, l));
  }

  /** The passes over buckets and pastes, and the end. */
  lemma LastPasses(m: (World, Op), id: nat, w: World, bc: PassCalls, pc: PassCalls, b: Listing, p: Listing)
    requires Lists(m, w, BucketShare) && bc.Fit(b) && pc.Fit(p)
    requires Listed(w, BucketShare, true, b) && Listed(AfterPass(w, bc, b), PasteShare, true, p)
    ensures var w2 := AfterPass(w, bc, b); var w3 := AfterPass(w2, pc, p);
            var next := RunOp(m.0, id, m.1, PassChoices(w, BucketShare, bc, b) + PassChoices(w2, PasteShare, pc, p));
            && next.1.Done? && next.1.outcome.Swept?
            && SameTables(next.0, w3.rows, w3.bfiles, w3.nextId, w3.blobs)
  {
    var w2 := AfterPass(w, bc, b);
    PassServed(m, id, w, BucketShare, bc, b);
    PassServed(RunOp(m.0, id, m.1, PassChoices(w, BucketShare, bc, b)), id, w2, PasteShare, pc, p);
    RunOpSplits(m.0, id, m.1, PassChoices(w, BucketShare, bc, b), PassChoices(w2, PasteShare, pc, p));
  }

  lemma AllPasses(m: (World, Op), id: nat, w: World, fc: PassCalls, bc: PassCalls, pc: PassCalls, f: Listing,
                  b: Listing, p: Listing)
    requires Lists(m, w, FileShare) && fc.Fit(f) && bc.Fit(b) && pc.Fit(p)
    requires var w1 := AfterPass(w, fc, f); var w2 := AfterPass(w1, bc, b);
             Listed(w, FileShare, true, f) && Listed(w1, BucketShare, true, b) && Listed(w2, PasteShare, true, p)
    ensures var w1 := AfterPass(w, fc, f); var w2 := AfterPass(w1, bc, b); var w3 := AfterPass(w2, pc, p);
            var next := RunOp(m.0, id, m.1, PassChoices(w, FileShare, fc, f) +
                                            (PassChoices(w1, BucketShare, bc, b) + PassChoices(w2, PasteShare, pc, p)));
            && next.1.Done? && next.1.outcome.Swept?
            && SameTables(next.0, w3.rows, w3.bfiles, w3.nextId, w3.blobs)
  {
    var w1 := AfterPass(w, fc, f);
    var rest := PassChoices(w1, BucketShare, bc, b) + PassChoices(AfterPass(w1, bc, b), PasteShare, pc, p);
    PassServed(m, id, w, FileShare, fc, f);
    LastPasses(RunOp(m.0, id, m.1, PassChoices(w, FileShare, fc, f)), id, w1, bc, pc, b, p);
    RunOpSplits(m.0, id, m.1, PassChoices(w, FileShare, fc, f), rest);
  }

  lemma BeginSweep(w: World, id: nat)
    ensures Lists(Begin(w, id, Sweep), w, FileShare)
  {
  }

  /**
   A sweep requested alone goes through files, buckets and pastes and leaves what three passes leave, the
   passes of `Server.Pbin.Sweep`, whichever of its deletions fail.
   */
  lemma SweepServed(s: Sys, id: nat, fc: PassCalls, bc: PassCalls, pc: PassCalls, f: Listing, b: Listing, p: Listing)
    requires id !in s.ops && fc.Fit(f) && bc.Fit(b) && pc.Fit(p)
    requires var w1 := AfterPass(s.w, fc, f); var w2 := AfterPass(w1, bc, b);
             Listed(s.w, FileShare, true, f) && Listed(w1, BucketShare, true, b) && Listed(w2, PasteShare, true, p)
    ensures var w1 := AfterPass(s.w, fc, f); var w2 := AfterPass(w1, bc, b); var w3 := AfterPass(w2, pc, p);
            var t := Served(s, id, Sweep, PassChoices(s.w, FileShare, fc, f) +
                                          (PassChoices(w1, BucketShare, bc, b) + PassChoices(w2, PasteShare, pc, p)));
            && id in t.ops && t.ops[id].Done? && t.ops[id].outcome.Swept?
            && SameTables(t.w, w3.rows, w3.bfiles, w3.nextId, w3.blobs)
  {
    var w1 := AfterPass(s.w, fc, f);
    var cs := PassChoices(s.w, FileShare, fc, f) +
              (PassChoices(w1, BucketShare, bc, b) + PassChoices(AfterPass(w1, bc, b), PasteShare, pc, p));
    BeginSweep(s.w, id);
    AllPasses(Begin(s.w, id, Sweep), id, s.w, fc, bc, pc, f, b, p);
    ServedIsRunOp(s, id, Sweep, cs);
  }
}
