/**
 From requests to effects: every row describes the request that created it, and every read and every
 removal was asked for, with the very password or secret that let it through.
 */
module Requests {
  import opened Wrappers
  import opened Images
  import opened Shares
  import opened Machine
  import opened Invariant
  import opened Reachable
  import opened Delivery
  import opened Contents
  import opened Removal
  import opened Stores
  import Expiry

  /** Event m brings a request that is accepted as a new operation. */
  ghost predicate AskedAt(s0: Sys, es: seq<Event>, m: nat)
    requires m < |es|
  {
    var s := Run(s0, es[..m]);
    es[m].Start? && es[m].id !in s.ops && Possible(s.w, es[m].req)
  }

  lemma AskedBefore(s0: Sys, es: seq<Event>, k: nat, m: nat)
    requires m < k <= |es| && AskedAt(s0, es[..k], m)
    ensures AskedAt(s0, es, m) && Run(s0, es[..k][..m]) == Run(s0, es[..m])
  {
    assert es[..k][..m] == es[..m];
  }

  /* ---------- creations ---------- */

  predicate Creating(req: Request) {
    req.Upload? || req.NewPaste? || req.NewBucket?
  }

  /** The share a creation request creates. */
  function ShareOf(req: Request): Ref
    requires Creating(req)
  {
    match req
    case Upload(slug, _, _, _, _, _, _, _, _, _) => Ref(FileShare, slug)
    case NewPaste(slug, _, _, _, _, _, _, _) => Ref(PasteShare, slug)
    case NewBucket(slug, _, _, _, _, _) => Ref(BucketShare, slug)
  }

  /** The request passes local validation: a known preset, and for a paste a text. */
  predicate Valid(req: Request) {
    Creating(req) && req.expiry in Expiry.PRESETS && (req.NewPaste? ==> req.text != "")
  }

  /** The MIME type kept for an upload: the sniffed one, unless it is dangerous or an unproved image. */
  predicate MimeFits(sniffed: string, peek: Bytes, mime: string) {
    mime == if sniffed in DANGEROUS || (IsImage(sniffed) && !(|peek| >= 4 && HasSignature(sniffed, peek)))
            then "application/octet-stream" else sniffed
  }

  /** The columns of a row describe the request, made at instant `created`, that the row is for. */
  ghost predicate Describes(meta: Meta, req: Request, created: int)
    requires Valid(req)
  {
    && meta.secret == req.secret && meta.pwHash == req.pwHash && meta.oneUse == req.oneUse
    && Expiry.Honours(req.expiry, created, meta.expires)
    && match req
       case Upload(_, _, _, _, _, filename, size, body, peek, sniffed) =>
         && meta.info.FileInfo? && meta.info.filename == filename && meta.info.size == size
         && peek <= |body| && MimeFits(sniffed, body[..peek], meta.info.mime)
       case NewPaste(_, _, _, _, _, title, text, lang) =>
         meta.info == PasteInfo(title, text, if lang == "" then "text" else lang)
       case NewBucket(_, _, _, _, _, _) => meta.info == BucketInfo
  }

  /** What the slug of the request was drawn for: its row, and the bytes or files it brought. */
  ghost predicate Keeps(use: Use, req: Request, created: int)
    requires Valid(req)
  {
    match req
    case Upload(_, _, _, _, _, _, _, body, _, _) =>
      use.ForFile? && use.content == body && Describes(use.meta, req, created)
    case NewPaste(_, _, _, _, _, _, _, _) => use.ForPaste? && Describes(use.meta, req, created)
    case NewBucket(_, _, _, _, _, inputs) =>
      use.ForBucket? && use.inputs == inputs && Describes(use.meta, req, created)
  }

  lemma BeginKeeps(w: World, id: nat, req: Request)
    requires Possible(w, req) && Valid(req)
    ensures var w' := Begin(w, id, req).0;
            && ShareOf(req).slug in w'.tickets && w'.tickets[ShareOf(req).slug].op == id
            && Keeps(w'.tickets[ShareOf(req).slug].use, req, w.now)
  {
    Expiry.DeadlineHonours(req.expiry, w.now);
  }

  /** The request of event m stays on record. */
  lemma RequestIsKept(s0: Sys, es: seq<Event>, m: nat)
    requires Inv(s0) && m < |es| && AskedAt(s0, es, m) && Valid(es[m].req)
    ensures var t := Run(s0, es); var slug := ShareOf(es[m].req).slug;
            && slug in t.w.tickets && t.w.tickets[slug].op == es[m].id
            && Keeps(t.w.tickets[slug].use, es[m].req, Run(s0, es[..m]).w.now)
  {
    BeginKeeps(Run(s0, es[..m]).w, es[m].id, es[m].req);
    RecordStays(s0, es, m, ShareOf(es[m].req).slug);
  }

  /** A row, alive or gone, that has the slug of the request describes the request. */
  lemma RowDescribesRequest(s0: Sys, es: seq<Event>, m: nat)
    requires Inv(s0) && m < |es| && AskedAt(s0, es, m) && Valid(es[m].req)
    requires ShareOf(es[m].req) in Run(s0, es).w.born
    ensures Describes(Run(s0, es).w.born[ShareOf(es[m].req)], es[m].req, Run(s0, es[..m]).w.now)
  {
    RequestIsKept(s0, es, m);
    RunInv(s0, es);
    assert BornFits(Run(s0, es).w, ShareOf(es[m].req));
  }

  /** A string drawn by a step is a storage key. */
  lemma StepsDrawMembers(w: World, id: nat, op: Op, c: Choice, k: string)
    requires k !in w.tickets && k in StepOp(w, id, op, c).0.tickets
    ensures StepOp(w, id, op, c).0.tickets[k].use.ForMember?
  {
    if Creates(op) {
      CreationDrawsMembers(w, id, op, c, k);
    } else if Reads(op) {
      ReadsKeepHistory(w, id, op, c);
    } else if Removes(op) {
      RemovalsKeepHistory(w, op, c);
    }
  }

  lemma CreationDrawsMembers(w: World, id: nat, op: Op, c: Choice, k: string)
    requires Creates(op) && k !in w.tickets && k in CreationStep(w, id, op, c).0.tickets
    ensures CreationStep(w, id, op, c).0.tickets[k].use.ForMember?
  {
    match op
    case Undo(keys) => UndoDrawsNothing(w, keys, c);
    case CrWrite(slug, meta, inputs, stored) =>
    case CrAdd(slug, stored, next) => AddDrawsNothing(w, slug, stored, next, c);
    case _ => UploadDrawsNothing(w, op, c);
  }

  lemma UndoDrawsNothing(w: World, keys: seq<string>, c: Choice)
    ensures UndoStep(w, keys, c).0.tickets == w.tickets
  {
  }

  lemma AddDrawsNothing(w: World, slug: string, stored: seq<Member>, next: nat, c: Choice)
    ensures AddStep(w, slug, stored, next, c).0.tickets == w.tickets
  {
    if next < |stored| && c.Succeed? && Ref(BucketShare, slug) in w.rows {
      var f := AsFile(stored[next]);
      assert InsertFile(w, slug, f).tickets == w.tickets;
    }
  }

  lemma UploadDrawsNothing(w: World, op: Op, c: Choice)
    requires op.UpWrite? || op.UpInsert? || op.PasteInsert?
    ensures UploadStep(w, op, c).0.tickets == w.tickets
  {
  }

  lemma BeginDrawsShares(w: World, id: nat, req: Request, k: string)
    requires Possible(w, req) && k !in w.tickets && k in Begin(w, id, req).0.tickets
    ensures Valid(req) && ShareOf(req).slug == k
  {
  }

  lemma NewDraw(s: Sys, e: Event, k: string)
    requires k !in s.w.tickets && k in Step(s, e).w.tickets && !Step(s, e).w.tickets[k].use.ForMember?
    ensures e.Start? && e.id !in s.ops && Possible(s.w, e.req) && Valid(e.req) && ShareOf(e.req).slug == k
  {
    if e.Start? && e.id !in s.ops && Possible(s.w, e.req) {
      BeginDrawsShares(s.w, e.id, e.req, k);
    } else if e.Advance? && e.id in s.ops {
      StepsDrawMembers(s.w, e.id, s.ops[e.id], e.choice, k);
    }
  }

  /** Event m is a valid request that drew slug k, and the record of it is kept in the world w. */
  ghost predicate DrawnAt(s0: Sys, es: seq<Event>, m: nat, k: string, use: Use)
    requires m < |es|
  {
    && AskedAt(s0, es, m) && Valid(es[m].req) && ShareOf(es[m].req).slug == k
    && Keeps(use, es[m].req, Run(s0, es[..m]).w.now)
  }

  ghost predicate WasDrawn(s0: Sys, es: seq<Event>, k: string, use: Use) {
    exists m :: 0 <= m < |es| && DrawnAt(s0, es, m, k, use)
  }

  lemma {:induction false} SlugWasDrawn(now: int, bcrypt: (string, string) -> bool, es: seq<Event>, k: string)
    requires var t := Run(Initial(now, bcrypt), es); k in t.w.tickets && !t.w.tickets[k].use.ForMember?
    ensures WasDrawn(Initial(now, bcrypt), es, k, Run(Initial(now, bcrypt), es).w.tickets[k].use)
  {
    var s0 := Initial(now, bcrypt);
    if es != [] {
      var n := |es| - 1;
      var s := Run(s0, es[..n]);
      InitialInv(now, bcrypt);
      RunInv(s0, es[..n]);
      if k in s.w.tickets {
        KeptByEvent(s, es[n], k);
        SlugWasDrawn(now, bcrypt, es[..n], k);
        var m :| 0 <= m < n && DrawnAt(s0, es[..n], m, k, s.w.tickets[k].use);
        AskedBefore(s0, es, n, m);
        assert DrawnAt(s0, es, m, k, Run(s0, es).w.tickets[k].use);
      } else {
        NewDraw(s, es[n], k);
        BeginKeeps(s.w, es[n].id, es[n].req);
        assert DrawnAt(s0, es, n, k, Run(s0, es).w.tickets[k].use);
      }
    }
  }

  lemma KeptByEvent(s: Sys, e: Event, k: string)
    requires Inv(s) && k in s.w.tickets
    ensures k in Step(s, e).w.tickets && Step(s, e).w.tickets[k] == s.w.tickets[k]
  {
    EventGuarantee(s, e);
  }

  /** Event m is the request that created share r, and the row of r, alive or gone, describes it. */
  ghost predicate CreatedBy(s0: Sys, es: seq<Event>, m: nat, r: Ref, meta: Meta)
    requires m < |es|
  {
    && AskedAt(s0, es, m) && Valid(es[m].req) && ShareOf(es[m].req) == r
    && Describes(meta, es[m].req, Run(s0, es[..m]).w.now)
  }

  ghost predicate WasCreated(s0: Sys, es: seq<Event>, r: Ref, meta: Meta) {
    exists m :: 0 <= m < |es| && CreatedBy(s0, es, m, r, meta)
  }

  lemma BornIsInOrder(now: int, bcrypt: (string, string) -> bool, es: seq<Event>, r: Ref)
    requires r in Run(Initial(now, bcrypt), es).w.born
    ensures BornFits(Run(Initial(now, bcrypt), es).w, r)
  {
    InitialInv(now, bcrypt);
    RunInv(Initial(now, bcrypt), es);
  }

  lemma BornIsDrawn(w: World, r: Ref)
    requires r in w.born && BornFits(w, r)
    ensures r.slug in w.tickets && !w.tickets[r.slug].use.ForMember?
  {
  }

  lemma KeptIsDescribed(w: World, r: Ref, req: Request, created: int)
    requires r in w.born && BornFits(w, r) && Valid(req) && ShareOf(req).slug == r.slug
    requires r.slug in w.tickets && Keeps(w.tickets[r.slug].use, req, created)
    ensures ShareOf(req) == r && Describes(w.born[r], req, created)
  {
  }

  lemma DrawnIsCreated(s0: Sys, es: seq<Event>, w: World, r: Ref)
    requires r in w.born && BornFits(w, r) && r.slug in w.tickets
    requires WasDrawn(s0, es, r.slug, w.tickets[r.slug].use)
    ensures WasCreated(s0, es, r, w.born[r])
  {
    var m :| 0 <= m < |es| && DrawnAt(s0, es, m, r.slug, w.tickets[r.slug].use);
    KeptIsDescribed(w, r, es[m].req, Run(s0, es[..m]).w.now);
    assert CreatedBy(s0, es, m, r, w.born[r]);
  }

  /** Every row goes back to one request and has that request's secret, password, flag, deadline and content. */
  lemma RowWasRequested(now: int, bcrypt: (string, string) -> bool, es: seq<Event>, r: Ref)
    requires r in Run(Initial(now, bcrypt), es).w.born
    ensures WasCreated(Initial(now, bcrypt), es, r, Run(Initial(now, bcrypt), es).w.born[r])
  {
    var w := Run(Initial(now, bcrypt), es).w;
    BornIsInOrder(now, bcrypt, es, r);
    BornIsDrawn(w, r);
    SlugWasDrawn(now, bcrypt, es, r.slug);
    DrawnIsCreated(Initial(now, bcrypt), es, w, r);
  }
}
