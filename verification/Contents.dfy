/** What readers get: the uploaded bytes, and bucket listings in request order. */
module Contents {
  import opened Images
  import opened Shares
  import opened Machine
  import opened Invariant
  import opened Reachable
  import opened Delivery
  import Expiry
  import Slugs

  /* ---------- requests on record ---------- */

  lemma {:induction false} TicketForever(s: Sys, es: seq<Event>, k: string)
    requires Inv(s) && k in s.w.tickets
    ensures k in Run(s, es).w.tickets && Run(s, es).w.tickets[k] == s.w.tickets[k]
  {
    if es != [] {
      TicketForever(s, es[..|es| - 1], k);
      RunInv(s, es[..|es| - 1]);
      EventGuarantee(Run(s, es[..|es| - 1]), es[|es| - 1]);
    }
  }

  /** The entity an accepted upload request describes. */
  function UploadMeta(w: World, req: Request): Meta
    requires req.Upload? && Possible(w, req) && req.expiry in Expiry.PRESETS
  {
    Meta(req.secret, req.pwHash, req.oneUse, ExpiresAt(w, req.expiry),
         FileInfo(req.filename, req.size, Decide(req.sniffed, req.body[..req.peek])))
  }

  lemma UploadIsRecorded(s: Sys, id: nat, req: Request)
    requires id !in s.ops && req.Upload? && Possible(s.w, req) && req.expiry in Expiry.PRESETS
    ensures var w' := Step(s, Start(id, req)).w;
            req.slug in w'.tickets && w'.tickets[req.slug].use == ForFile(UploadMeta(s.w, req), req.body)
  {
  }

  /** A record made at event m is still there at the end of the run. */
  lemma RecordStays(s0: Sys, es: seq<Event>, m: nat, k: string)
    requires Inv(s0) && m < |es|
    requires k in Step(Run(s0, es[..m]), es[m]).w.tickets
    ensures k in Run(s0, es).w.tickets
    ensures Run(s0, es).w.tickets[k] == Step(Run(s0, es[..m]), es[m]).w.tickets[k]
  {
    RunInv(s0, es[..m]);
    StepInv(Run(s0, es[..m]), es[m]);
    assert es[..m + 1][..m] == es[..m] && es[..|es|] == es;
    RunSplits(s0, es, m + 1, |es|);
    TicketForever(Step(Run(s0, es[..m]), es[m]), es[m + 1..], k);
  }

  /**
   End to end, files.  Whatever happened since a request uploaded `body` as file `slug`, a Get that
   hands out that file's content hands out exactly `body`, under the uploaded name.
   */
  lemma DownloadIsUpload(s0: Sys, es: seq<Event>, m: nat, id: nat)
    requires Inv(s0) && m < |es| && es[m].Start? && es[m].req.Upload?
    requires var s := Run(s0, es[..m]); var req := es[m].req;
             es[m].id !in s.ops && Possible(s.w, req) && req.expiry in Expiry.PRESETS
    requires var t := Run(s0, es); id in t.ops && t.ops[id].Done? && t.ops[id].outcome.Sent?
    requires Run(s0, es).ops[id].outcome.ref == Ref(FileShare, es[m].req.slug)
    requires Run(s0, es).ops[id].outcome.goal.Fetch?
    ensures var o := Run(s0, es).ops[id].outcome; var req := es[m].req;
            o.meta == UploadMeta(Run(s0, es[..m]).w, req) && o.entries == [Entry(req.filename, req.body)]
  {
    UploadIsRecorded(Run(s0, es[..m]), es[m].id, es[m].req);
    RecordStays(s0, es, m, es[m].req.slug);
    RunInv(s0, es);
    SentFileIsTicket(Run(s0, es), id);
  }

  /** The content of a delivered file is what its slug was drawn for. */
  lemma SentFileIsTicket(t: Sys, id: nat)
    requires Inv(t) && id in t.ops && t.ops[id].Done? && t.ops[id].outcome.Sent?
    requires t.ops[id].outcome.ref.kind.FileShare? && t.ops[id].outcome.goal.Fetch?
    ensures var o := t.ops[id].outcome; var slug := o.ref.slug;
            && slug in t.w.tickets && t.w.tickets[slug].use.ForFile? && o.meta == t.w.tickets[slug].use.meta
            && o.meta.info.FileInfo?
            && o.entries == [Entry(o.meta.info.filename, t.w.tickets[slug].use.content)]
  {
    assert OpInv(t.w, id, t.ops[id]);
    var o := t.ops[id].outcome;
    assert BornFits(t.w, o.ref);
  }

  /* ---------- bucket listings ---------- */

  function EntryOf(input: Input): Entry {
    Entry(input.filename, input.content)
  }

  function EntriesOf(inputs: seq<Input>): (es: seq<Entry>)
    ensures |es| == |inputs| && forall i :: 0 <= i < |inputs| ==> es[i] == EntryOf(inputs[i])
  {
    seq(|inputs|, i requires 0 <= i < |inputs| => EntryOf(inputs[i]))
  }

  /** The j-th listed file is the j-th request file: its name, size, type, and the bytes under its key. */
  predicate ListsInput(w: World, f: BFile, input: Input) {
    && f.filename == input.filename && f.size == input.size
    && f.mime == (if input.mime == "" then OCTET_STREAM else input.mime)
    && f.key in w.tickets && w.tickets[f.key].use.ForMember? && w.tickets[f.key].use.content == input.content
  }

  ghost predicate ListsInputs(w: World, files: seq<BFile>, inputs: seq<Input>) {
    |files| <= |inputs| && forall j :: 0 <= j < |files| ==> ListsInput(w, files[j], inputs[j])
  }

  /** A bucket's owned files are a prefix of its request, and all of it once Create has returned. */
  lemma OwnedListsRequest(w: World, b: string)
    requires WorldInv(w) && Ref(BucketShare, b) in w.born
    ensures b in w.tickets && w.tickets[b].use.ForBucket?
    ensures ListsInputs(w, Owned(w, Ref(BucketShare, b)), w.tickets[b].use.inputs)
    ensures b in w.completed ==> |Owned(w, Ref(BucketShare, b))| == |w.tickets[b].use.inputs|
  {
    assert BornFits(w, Ref(BucketShare, b));
    assert PlanFits(w, b);
  }

  /**
   The second query of GetBySlug, in any reachable state: a prefix of that bucket's request in
   request order, however AddFile statements of other buckets interleave in the shared table; the
   whole request if Create has returned and the bucket's row is still there.
   */
  lemma ListingFollowsRequest(s: Sys, b: string)
    requires IsReachable(s) && Ref(BucketShare, b) in s.w.born
    ensures b in s.w.tickets && s.w.tickets[b].use.ForBucket?
    ensures ListsInputs(s.w, FilesOf(s.w.bfiles, b), s.w.tickets[b].use.inputs)
    ensures b in s.w.completed && Ref(BucketShare, b) in s.w.rows ==>
              |FilesOf(s.w.bfiles, b)| == |s.w.tickets[b].use.inputs|
    ensures Ref(BucketShare, b) !in s.w.rows ==> FilesOf(s.w.bfiles, b) == []
  {
    ReachableInv(s);
    assert ListOk(s.w, b);
    OwnedListsRequest(s.w, b);
  }

  /** A Create that returned success has inserted its row and a file row for every file of its request. */
  lemma StoredMeansCompleted(s: Sys, id: nat, b: string)
    requires IsReachable(s) && id in s.ops && s.ops[id] == Done(Stored(Ref(BucketShare, b)))
    ensures Ref(BucketShare, b) in s.w.born && b in s.w.completed
    ensures b in s.w.tickets && s.w.tickets[b].use.ForBucket? && b in s.w.added
    ensures s.w.added[b] == |s.w.tickets[b].use.inputs|
    ensures Ref(BucketShare, b) in s.w.rows ==> |FilesOf(s.w.bfiles, b)| == |s.w.tickets[b].use.inputs|
  {
    ReachableInv(s);
    assert OpInv(s.w, id, s.ops[id]);
    ListingLength(s.w, b);
  }

  lemma DeliveredPrefix(w: World, b: string, files: seq<BFile>, entries: seq<Entry>)
    requires WorldInv(w) && Ref(BucketShare, b) in w.born
    requires files <= Owned(w, Ref(BucketShare, b)) && Delivers(w, files, entries)
    ensures b in w.tickets && w.tickets[b].use.ForBucket? && entries <= EntriesOf(w.tickets[b].use.inputs)
  {
    OwnedListsRequest(w, b);
    var inputs := w.tickets[b].use.inputs;
    forall j | 0 <= j < |entries| ensures entries[j] == EntriesOf(inputs)[j] {
      assert ListsInput(w, files[j], inputs[j]);
    }
  }

  /** Whatever a ZIP has written, finished or broken off, is a prefix of the request's files. */
  lemma ZipIsPrefixOfRequest(s: Sys, id: nat)
    requires Inv(s) && id in s.ops && s.ops[id].Done? && (s.ops[id].outcome.Sent? || s.ops[id].outcome.Broken?)
    requires s.ops[id].outcome.ref.kind.BucketShare? && s.ops[id].outcome.goal.Fetch?
    ensures var o := s.ops[id].outcome; var b := o.ref.slug;
            && b in s.w.tickets && s.w.tickets[b].use.ForBucket? && o.meta == s.w.tickets[b].use.meta
            && o.entries <= EntriesOf(s.w.tickets[b].use.inputs)
            && (o.Sent? ==> |o.entries| == |o.files|)
  {
    assert OpInv(s.w, id, s.ops[id]);
    var o := s.ops[id].outcome;
    assert BornFits(s.w, o.ref);
    DeliveredPrefix(s.w, o.ref.slug, o.files, o.entries);
  }

  /** GetFile delivers the bytes of the very request file whose storage key was asked for. */
  lemma BucketFileIsInput(s: Sys, id: nat)
    requires IsReachable(s) && id in s.ops && s.ops[id].Done? && s.ops[id].outcome.Sent?
    requires s.ops[id].outcome.ref.kind.BucketShare? && s.ops[id].outcome.goal.OneFile?
    ensures var o := s.ops[id].outcome; var b := o.ref.slug;
            && b in s.w.plan && b in s.w.tickets && s.w.tickets[b].use.ForBucket?
            && exists j :: 0 <= j < |s.w.plan[b]| && s.w.plan[b][j].key == o.goal.key &&
                 j < |s.w.tickets[b].use.inputs| &&
                 o.entries == [EntryOf(s.w.tickets[b].use.inputs[j])]
  {
    ReachableInv(s);
    assert OpInv(s.w, id, s.ops[id]);
    var o := s.ops[id].outcome;
    OwnedFileIsInput(s.w, o.ref.slug, o.files[0]);
  }

  /** A file the bucket owns is one of its request's files, with that file's bytes under its key. */
  lemma OwnedFileIsInput(w: World, b: string, f: BFile)
    requires WorldInv(w) && Ref(BucketShare, b) in w.born && f in Owned(w, Ref(BucketShare, b))
    ensures b in w.plan && b in w.tickets && w.tickets[b].use.ForBucket?
    ensures exists j :: 0 <= j < |w.plan[b]| && w.plan[b][j].key == f.key && j < |w.tickets[b].use.inputs| &&
              ListsInput(w, f, w.tickets[b].use.inputs[j])
  {
    OwnedListsRequest(w, b);
    assert BornFits(w, Ref(BucketShare, b));
    assert PlanFits(w, b);
    var j :| 0 <= j < |Owned(w, Ref(BucketShare, b))| && Owned(w, Ref(BucketShare, b))[j] == f;
    assert ListsInput(w, f, w.tickets[b].use.inputs[j]);
    assert w.plan[b][j].key == f.key;
  }

  /* ---------- whole ZIPs ---------- */

  /** A Fetch read works with one file list from its listing to its end. */
  predicate Carries(op: Op, r: Ref, files: seq<BFile>) {
    match op
    case RdCheck(q, _, goal, _, f) => q == r && goal.Fetch? && f == files
    case RdMark(q, _, _, f, _) => q == r && f == files
    case RdSend(q, goal, _, f, _) => q == r && goal.Fetch? && f == files
    case Done(Sent(q, goal, _, f, _)) => q == r && goal.Fetch? && f == files
    case Done(_) => true
    case _ => false
  }

  lemma CarriesStays(s: Sys, e: Event, id: nat, r: Ref, files: seq<BFile>)
    requires id in s.ops && Carries(s.ops[id], r, files)
    ensures id in Step(s, e).ops && Carries(Step(s, e).ops[id], r, files)
  {
  }

  lemma {:induction false} CarriesForever(s: Sys, es: seq<Event>, id: nat, r: Ref, files: seq<BFile>)
    requires id in s.ops && Carries(s.ops[id], r, files)
    ensures id in Run(s, es).ops && Carries(Run(s, es).ops[id], r, files)
  {
    if es != [] {
      CarriesForever(s, es[..|es| - 1], id, r, files);
      CarriesStays(Run(s, es[..|es| - 1]), es[|es| - 1], id, r, files);
    }
  }

  /**
   End to end, buckets, exactly.  A StreamZIP that ends without error holds exactly the uploaded files,
   in request order, under their names, if and only if at the moment of its file query the bucket's
   row was still there and every AddFile of its Create was done, or there was nothing to add.  In all
   other cases it is shorter, down to empty, and still ends without error.
   */
  lemma ZipIsWholeIff(s0: Sys, es: seq<Event>, m: nat, id: nat, b: string)
    requires Inv(s0) && m < |es| && es[m] == Advance(id, Succeed)
    requires var s := Run(s0, es[..m]);
             id in s.ops && s.ops[id].RdFiles? && s.ops[id].ref == Ref(BucketShare, b) && s.ops[id].goal.Fetch?
    requires var t := Run(s0, es); id in t.ops && t.ops[id].Done? && t.ops[id].outcome.Sent?
    ensures b in Run(s0, es).w.tickets && Run(s0, es).w.tickets[b].use.ForBucket?
    ensures var s := Run(s0, es[..m]); var inputs := Run(s0, es).w.tickets[b].use.inputs;
            Run(s0, es).ops[id].outcome.entries == EntriesOf(inputs) <==>
              inputs == [] || (Ref(BucketShare, b) in s.w.rows && b in s.w.added && s.w.added[b] == |inputs|)
  {
    var s, t := Run(s0, es[..m]), Run(s0, es);
    RunInv(s0, es[..m]);
    RunInv(s0, es);
    ListedBucketIsBorn(s, id);
    ListingLength(s.w, b);
    RecordStaysFrom(s0, es, m, b);
    ListingCarries(s0, es, m, id, b);
    ZipIsPrefixOfRequest(t, id);
    var inputs := t.w.tickets[b].use.inputs;
    assert |t.ops[id].outcome.entries| == |FilesOf(s.w.bfiles, b)|;
    assert t.ops[id].outcome.entries == EntriesOf(inputs) <==> |FilesOf(s.w.bfiles, b)| == |inputs|;
  }

  lemma ListedBucketIsBorn(s: Sys, id: nat)
    requires Inv(s) && id in s.ops && s.ops[id].RdFiles?
    ensures s.ops[id].ref in s.w.born
  {
    assert OpInv(s.w, id, s.ops[id]);
  }

  lemma ListingLength(w: World, b: string)
    requires WorldInv(w) && Ref(BucketShare, b) in w.born
    ensures b in w.tickets && w.tickets[b].use.ForBucket? && b in w.added
    ensures |FilesOf(w.bfiles, b)| == if Ref(BucketShare, b) in w.rows then w.added[b] else 0
    ensures b in w.completed ==> w.added[b] == |w.tickets[b].use.inputs|
  {
    assert BornFits(w, Ref(BucketShare, b));
    assert PlanFits(w, b);
    assert ListOk(w, b);
  }

  /** In particular, once Create has returned and while the row is still there, the ZIP is whole. */
  lemma ZipIsWhole(s0: Sys, es: seq<Event>, m: nat, id: nat, b: string)
    requires Inv(s0) && m < |es| && es[m] == Advance(id, Succeed)
    requires var s := Run(s0, es[..m]);
             && id in s.ops && s.ops[id].RdFiles? && s.ops[id].ref == Ref(BucketShare, b) && s.ops[id].goal.Fetch?
             && b in s.w.completed && Ref(BucketShare, b) in s.w.rows
    requires var t := Run(s0, es); id in t.ops && t.ops[id].Done? && t.ops[id].outcome.Sent?
    ensures b in Run(s0, es).w.tickets && Run(s0, es).w.tickets[b].use.ForBucket?
    ensures Run(s0, es).ops[id].outcome.entries == EntriesOf(Run(s0, es).w.tickets[b].use.inputs)
  {
    var s := Run(s0, es[..m]);
    RunInv(s0, es[..m]);
    ListedBucketIsBorn(s, id);
    ListingLength(s.w, b);
    RecordStaysFrom(s0, es, m, b);
    ZipIsWholeIff(s0, es, m, id, b);
  }

  lemma ListingStarts(s: Sys, id: nat, r: Ref)
    requires id in s.ops && s.ops[id].RdFiles? && s.ops[id].ref == r && s.ops[id].goal.Fetch?
    ensures id in Step(s, Advance(id, Succeed)).ops
    ensures Carries(Step(s, Advance(id, Succeed)).ops[id], r, FilesOf(s.w.bfiles, r.slug))
  {
  }

  lemma ListingCarries(s0: Sys, es: seq<Event>, m: nat, id: nat, b: string)
    requires m < |es| && es[m] == Advance(id, Succeed)
    requires var s := Run(s0, es[..m]);
             id in s.ops && s.ops[id].RdFiles? && s.ops[id].ref == Ref(BucketShare, b) && s.ops[id].goal.Fetch?
    ensures id in Run(s0, es).ops
    ensures Carries(Run(s0, es).ops[id], Ref(BucketShare, b), FilesOf(Run(s0, es[..m]).w.bfiles, b))
  {
    var s := Run(s0, es[..m]);
    assert es[..m + 1][..m] == es[..m] && es[..|es|] == es;
    RunSplits(s0, es, m + 1, |es|);
    ListingStarts(s, id, Ref(BucketShare, b));
    CarriesForever(Step(s, es[m]), es[m + 1..], id, Ref(BucketShare, b), FilesOf(s.w.bfiles, b));
  }

  lemma RecordStaysFrom(s0: Sys, es: seq<Event>, m: nat, k: string)
    requires Inv(s0) && m <= |es| && k in Run(s0, es[..m]).w.tickets
    ensures k in Run(s0, es).w.tickets && Run(s0, es).w.tickets[k] == Run(s0, es[..m]).w.tickets[k]
  {
    RunInv(s0, es[..m]);
    assert es[..|es|] == es;
    RunSplits(s0, es, m, |es|);
    TicketForever(Run(s0, es[..m]), es[m..], k);
  }

  /* ---------- requests, end to end ---------- */

  lemma BucketIsRecorded(s: Sys, id: nat, req: Request)
    requires id !in s.ops && req.NewBucket? && Possible(s.w, req) && req.expiry in Expiry.PRESETS
    ensures var w' := Step(s, Start(id, req)).w;
            && req.slug in w'.tickets && w'.tickets[req.slug].use.ForBucket?
            && w'.tickets[req.slug].use.inputs == req.inputs
            && w'.tickets[req.slug].use.meta ==
                 Meta(req.secret, req.pwHash, req.oneUse, ExpiresAt(s.w, req.expiry), BucketInfo)
  {
  }

  /** A ZIP of the bucket requested by event m writes a prefix of that request's files, in order. */
  lemma ZipFollowsRequest(s0: Sys, es: seq<Event>, m: nat, id: nat)
    requires Inv(s0) && m < |es| && es[m].Start? && es[m].req.NewBucket?
    requires var s := Run(s0, es[..m]); var req := es[m].req;
             es[m].id !in s.ops && Possible(s.w, req) && req.expiry in Expiry.PRESETS
    requires var t := Run(s0, es);
             id in t.ops && t.ops[id].Done? && (t.ops[id].outcome.Sent? || t.ops[id].outcome.Broken?)
    requires Run(s0, es).ops[id].outcome.ref == Ref(BucketShare, es[m].req.slug)
    requires Run(s0, es).ops[id].outcome.goal.Fetch?
    ensures Run(s0, es).ops[id].outcome.entries <= EntriesOf(es[m].req.inputs)
  {
    BucketIsRecorded(Run(s0, es[..m]), es[m].id, es[m].req);
    RecordStays(s0, es, m, es[m].req.slug);
    RunInv(s0, es);
    ZipIsPrefixOfRequest(Run(s0, es), id);
  }

  lemma PasteIsRecorded(s: Sys, id: nat, req: Request)
    requires id !in s.ops && req.NewPaste? && Possible(s.w, req) && req.expiry in Expiry.PRESETS && req.text != ""
    ensures var w' := Step(s, Start(id, req)).w;
            && req.slug in w'.tickets && w'.tickets[req.slug].use.ForPaste?
            && w'.tickets[req.slug].use.meta.info ==
                 PasteInfo(req.title, req.text, if req.lang == "" then "text" else req.lang)
  {
  }

  lemma SentPasteIsTicket(t: Sys, id: nat)
    requires Inv(t) && id in t.ops && t.ops[id].Done? && t.ops[id].outcome.Sent?
    requires t.ops[id].outcome.ref.kind.PasteShare?
    ensures var o := t.ops[id].outcome;
            o.ref.slug in t.w.tickets && t.w.tickets[o.ref.slug].use == ForPaste(o.meta)
  {
    assert OpInv(t.w, id, t.ops[id]);
    assert BornFits(t.w, t.ops[id].outcome.ref);
  }

  /** End to end, pastes: a delivered paste shows the posted title, text and language. */
  lemma PasteIsWhatWasPosted(s0: Sys, es: seq<Event>, m: nat, id: nat)
    requires Inv(s0) && m < |es| && es[m].Start? && es[m].req.NewPaste? && es[m].req.text != ""
    requires var s := Run(s0, es[..m]); var req := es[m].req;
             es[m].id !in s.ops && Possible(s.w, req) && req.expiry in Expiry.PRESETS
    requires var t := Run(s0, es); id in t.ops && t.ops[id].Done? && t.ops[id].outcome.Sent?
    requires Run(s0, es).ops[id].outcome.ref == Ref(PasteShare, es[m].req.slug)
    ensures var req := es[m].req;
            Run(s0, es).ops[id].outcome.meta.info ==
              PasteInfo(req.title, req.text, if req.lang == "" then "text" else req.lang)
  {
    PasteIsRecorded(Run(s0, es[..m]), es[m].id, es[m].req);
    RecordStays(s0, es, m, es[m].req.slug);
    RunInv(s0, es);
    SentPasteIsTicket(Run(s0, es), id);
  }

  /* ---------- images ---------- */

  /** A row with a supported image type has bytes that begin with that type's signature. */
  lemma StoredImagesAreSigned(s: Sys, slug: string)
    requires IsReachable(s) && Ref(FileShare, slug) in s.w.rows
    ensures s.w.rows[Ref(FileShare, slug)].meta.info.FileInfo?
    ensures var mime := s.w.rows[Ref(FileShare, slug)].meta.info.mime;
            IsImage(mime) && slug in s.w.blobs ==> HasSignature(mime, s.w.blobs[slug])
  {
    ReachableInv(s);
    assert BornFits(s.w, Ref(FileShare, slug));
  }

  /** Serve answers inline (IsImage) only with bytes whose signature was checked. */
  lemma InlineContentIsSigned(s: Sys, id: nat)
    requires IsReachable(s) && id in s.ops && s.ops[id].Done? && s.ops[id].outcome.Sent?
    requires s.ops[id].outcome.ref.kind.FileShare? && s.ops[id].outcome.goal.Fetch?
    ensures var o := s.ops[id].outcome;
            && o.meta.info.FileInfo? && |o.entries| == 1
            && (IsImage(o.meta.info.mime) ==> HasSignature(o.meta.info.mime, o.entries[0].data))
  {
    ReachableInv(s);
    SentFileIsTicket(s, id);
    assert OpInv(s.w, id, s.ops[id]);
    assert BornFits(s.w, s.ops[id].outcome.ref);
  }

  /** Every blob key the machine ever uses has the generator's shape. */
  lemma KeysAreSlugs(s: Sys, k: string)
    requires IsReachable(s) && (k in s.w.blobs || Ref(FileShare, k) in s.w.born || Ref(PasteShare, k) in s.w.born ||
                                Ref(BucketShare, k) in s.w.born)
    ensures Slugs.IsSlug(k, Slugs.SLUG_LENGTH)
    ensures Ref(FileShare, k) in s.w.rows ==> Ref(PasteShare, k) !in s.w.rows && Ref(BucketShare, k) !in s.w.rows
    ensures Ref(PasteShare, k) in s.w.rows ==> Ref(BucketShare, k) !in s.w.rows
  {
    ReachableInv(s);
    assert Ref(FileShare, k) in s.w.born ==> BornFits(s.w, Ref(FileShare, k));
    assert Ref(PasteShare, k) in s.w.born ==> BornFits(s.w, Ref(PasteShare, k));
    assert Ref(BucketShare, k) in s.w.born ==> BornFits(s.w, Ref(BucketShare, k));
  }
}
