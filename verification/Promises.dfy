/**
 What the service promises its users, stated on requests: who may read, who may remove, how often a
 one-use share is handed out, and how long a share is there.
 */
module Promises {
  import opened Wrappers
  import opened Images
  import opened Shares
  import opened Machine
  import opened Invariant
  import opened Reachable
  import opened Delivery
  import opened Removal
  import opened Requests
  import opened Authority
  import Expiry

  /** Event j is the valid request that created share r. */
  ghost predicate CreationAt(s0: Sys, es: seq<Event>, j: nat, r: Ref)
    requires j < |es|
  {
    AskedAt(s0, es, j) && Valid(es[j].req) && ShareOf(es[j].req) == r
  }

  lemma CreatedIsCreation(s0: Sys, es: seq<Event>, r: Ref, meta: Meta) returns (j: nat)
    requires WasCreated(s0, es, r, meta)
    ensures j < |es| && CreationAt(s0, es, j, r) && Describes(meta, es[j].req, Run(s0, es[..j]).w.now)
  {
    j :| 0 <= j < |es| && CreatedBy(s0, es, j, r, meta);
  }

  lemma CreationBefore(s0: Sys, es: seq<Event>, n: nat, j: nat, r: Ref)
    requires j < n <= |es| && CreationAt(s0, es[..n], j, r)
    ensures CreationAt(s0, es, j, r) && Run(s0, es[..n][..j]) == Run(s0, es[..j])
  {
    AskedBefore(s0, es, n, j);
  }

  /* ---------- deadlines ---------- */

  /** The share lives at this instant, as far as its preset goes. */
  predicate InTime(req: Request, created: int, now: int)
    requires Valid(req)
  {
    Expiry.PRESETS[req.expiry] == 0 || now <= created + Expiry.PRESETS[req.expiry]
  }

  lemma NotLapsedIsInTime(meta: Meta, req: Request, created: int, now: int)
    requires Valid(req) && Describes(meta, req, created) && !Expiry.Lapsed(meta.expires, now)
    ensures InTime(req, created, now)
  {
    Expiry.NoPresetIsNegative(req.expiry);
  }

  /** What the sweeper may take is past the deadline of the request. */
  lemma SweepableIsLate(meta: Meta, req: Request, created: int, at: int, now: int)
    requires Valid(req) && Describes(meta, req, created) && Expiry.Sweepable(meta.expires, at) && at <= now
    ensures Expiry.PRESETS[req.expiry] > 0 && now > created + Expiry.PRESETS[req.expiry]
  {
    Expiry.DeadlineHonours(req.expiry, created);
    Expiry.OneColumnHonours(req.expiry, created, meta.expires, Expiry.Column(Expiry.Deadline(req.expiry, created)));
    Expiry.NoPresetIsNegative(req.expiry);
    Expiry.SweepableIsPastDeadline(req.expiry, created, at);
  }

  lemma CheckHonours(w: World, id: nat, op: Op, c: Choice, req: Request, created: int)
    requires op.RdCheck? && Valid(req) && Describes(op.meta, req, created)
    ensures var d := Expiry.PRESETS[req.expiry]; var next := StepOp(w, id, op, c).1;
            && (d == 0 ==> next != Done(LapsedShare))
            && (d > 0 && w.now <= created + d - Expiry.SECOND + 1 ==> next != Done(LapsedShare))
            && (d > 0 && w.now > created + d ==> next == Done(LapsedShare))
  {
    assert StepOp(w, id, op, c).1 == Done(LapsedShare) <==> Expiry.Lapsed(op.meta.expires, w.now);
  }

  /**
   Deadlines are kept, over whole runs.  A share requested at event m with preset d, at clock t: no read of
   any kind is refused as expired up to t + d minus one second, every read is after t + d, and with "never"
   none ever is.
   */
  lemma ReadsHonourDeadline(s0: Sys, es: seq<Event>, m: nat, n: nat, id: nat)
    requires Inv(s0) && m < n < |es| && AskedAt(s0, es, m) && Valid(es[m].req)
    requires es[n].Advance? && es[n].id == id
    requires var s := Run(s0, es[..n]); id in s.ops && s.ops[id].RdCheck? && s.ops[id].ref == ShareOf(es[m].req)
    ensures var d := Expiry.PRESETS[es[m].req.expiry]; var created := Run(s0, es[..m]).w.now;
            var now := Run(s0, es[..n]).w.now; var next := Step(Run(s0, es[..n]), es[n]).ops[id];
            && (d == 0 ==> next != Done(LapsedShare))
            && (d > 0 && now <= created + d - Expiry.SECOND + 1 ==> next != Done(LapsedShare))
            && (d > 0 && now > created + d ==> next == Done(LapsedShare))
  {
    var s := Run(s0, es[..n]);
    RunInv(s0, es[..n]);
    CheckerKnows(s, id);
    assert es[..n][..m] == es[..m];
    RowDescribesRequest(s0, es[..n], m);
    CheckHonours(s.w, id, s.ops[id], es[n].choice, es[m].req, Run(s0, es[..m]).w.now);
  }

  /** Time does come: once the clock has moved past it, every further check of the share is refused. */
  lemma DeadlinesArrive(s0: Sys, es: seq<Event>, m: nat, d: nat, id: nat, c: Choice)
    requires Inv(s0) && m < |es| && AskedAt(s0, es, m) && Valid(es[m].req) && Expiry.PRESETS[es[m].req.expiry] > 0
    requires var s := Run(s0, es);
             && s.w.now + d > Run(s0, es[..m]).w.now + Expiry.PRESETS[es[m].req.expiry]
             && id in s.ops && s.ops[id].RdCheck? && s.ops[id].ref == ShareOf(es[m].req)
    ensures var t := Run(s0, es + [Tick(d), Advance(id, c)]); id in t.ops && t.ops[id] == Done(LapsedShare)
  {
    var all := es + [Tick(d), Advance(id, c)];
    var n := |es| + 1;
    assert all[..n] == es + [Tick(d)] && (es + [Tick(d)])[..|es|] == es && all[..m] == es[..m] && all[m] == es[m];
    assert Run(s0, all[..n]) == Step(Run(s0, es), Tick(d));
    assert all[..n + 1] == all && Run(s0, all) == Step(Run(s0, all[..n]), all[n]);
    ReadsHonourDeadline(s0, all, m, n, id);
  }

  /* ---------- removals ---------- */

  /** At event n the row of r goes, for the request k that its operation serves; j is the request that created it. */
  ghost predicate JustifiedAt(s0: Sys, es: seq<Event>, n: nat, k: nat, j: nat, r: Ref)
    requires n < |es| && k < n && j < n
  {
    && r in Run(s0, es[..n]).w.rows && r !in Step(Run(s0, es[..n]), es[n]).w.rows
    && AskedAt(s0, es, k) && es[n].Advance? && es[k].id == es[n].id
    && CreationAt(s0, es, j, r)
    && (|| es[k].req == Delete(r, es[j].req.secret)
        || (es[k].req == Sweep && !InTime(es[j].req, Run(s0, es[..j]).w.now, Run(s0, es[..n]).w.now)))
  }

  ghost predicate Justified(s0: Sys, es: seq<Event>, n: nat, r: Ref)
    requires n < |es|
  {
    exists k, j :: 0 <= k < n && 0 <= j < n && JustifiedAt(s0, es, n, k, j, r)
  }

  lemma RemoverServes(op: Op, req: Request, r: Ref, meta: Meta, creation: Request, created: int, now: int)
    requires Serves(op, req) && Valid(creation) && Describes(meta, creation, created)
    requires op.Purge? && op.items != [] && op.items[0].ref == r
    requires match op.why
             case BySecret(secret) => secret == meta.secret
             case BySweep(_, at, _, _) => at <= now && Expiry.Sweepable(meta.expires, at)
    ensures req == Delete(r, creation.secret) || (req == Sweep && !InTime(creation, created, now))
  {
    if op.why.BySweep? { SweepableIsLate(meta, creation, created, op.why.at, now); }
  }

  lemma LiveIsBorn(now: int, bcrypt: (string, string) -> bool, es: seq<Event>, r: Ref)
    requires r in Run(Initial(now, bcrypt), es).w.rows
    ensures var w := Run(Initial(now, bcrypt), es).w; r in w.born && w.rows[r].meta == w.born[r]
  {
    InitialInv(now, bcrypt);
    RunInv(Initial(now, bcrypt), es);
  }

  lemma RemovalIsJustified(now: int, bcrypt: (string, string) -> bool, es: seq<Event>, n: nat, r: Ref)
    requires n < |es| && RemovedAt(Initial(now, bcrypt), es, n, r)
    ensures Justified(Initial(now, bcrypt), es, n, r)
  {
    var s0 := Initial(now, bcrypt);
    var s := Run(s0, es[..n]);
    var op := s.ops[es[n].id];
    EveryOpWasAsked(now, bcrypt, es[..n], es[n].id);
    var k :| 0 <= k < n && ServesAt(s0, es[..n], k, es[n].id, op);
    LiveIsBorn(now, bcrypt, es[..n], r);
    RowWasRequested(now, bcrypt, es[..n], r);
    var j := CreatedIsCreation(s0, es[..n], r, s.w.born[r]);
    AskedBefore(s0, es, n, k);
    CreationBefore(s0, es, n, j, r);
    RemoverServes(op, es[k].req, r, s.w.born[r], es[j].req, Run(s0, es[..j]).w.now, s.w.now);
    assert JustifiedAt(s0, es, n, k, j, r);
  }

  /**
   Removal, on requests.  A row that has gone was taken away by one event, and that event belongs to a
   Delete request that presented the very secret given to the share's creator, or to a sweep after the
   share's deadline.
   */
  lemma LostRowsWereJustified(now: int, bcrypt: (string, string) -> bool, es: seq<Event>, m: nat, r: Ref)
    requires m <= |es| && r in Run(Initial(now, bcrypt), es[..m]).w.rows && r !in Run(Initial(now, bcrypt), es).w.rows
    ensures exists n :: m <= n < |es| && Justified(Initial(now, bcrypt), es, n, r)
  {
    InitialInv(now, bcrypt);
    LostRowsWereRemoved(Initial(now, bcrypt), es, m, r);
    var n :| m <= n < |es| && RemovedAt(Initial(now, bcrypt), es, n, r);
    RemovalIsJustified(now, bcrypt, es, n, r);
  }

  /* ---------- reading ---------- */

  /** The attempt opens a share with this hash: it has no password, or the attempt is not empty and matches. */
  predicate Opens(bcrypt: (string, string) -> bool, pwHash: string, pw: string) {
    pwHash == "" || (pw != "" && bcrypt(pwHash, pw))
  }

  /**
   Operation id is the read requested at event k, of the share requested at event j, and at event n, after
   both, the share is in time and, if one is needed, the attempt opens it.
   */
  ghost predicate EntitledAt(s0: Sys, es: seq<Event>, n: nat, k: nat, j: nat, id: nat, r: Ref, needsPw: bool)
    requires n < |es| && k < n && j < n
  {
    && AskedAt(s0, es, k) && es[k].id == id && es[k].req.Read? && es[k].req.ref == r
    && CreationAt(s0, es, j, r)
    && InTime(es[j].req, Run(s0, es[..j]).w.now, Run(s0, es[..n]).w.now)
    && (needsPw ==> Opens(s0.w.bcrypt, es[j].req.pwHash, es[k].req.pw))
  }

  lemma {:induction false} HashingStays(now: int, bcrypt: (string, string) -> bool, es: seq<Event>)
    ensures Run(Initial(now, bcrypt), es).w.bcrypt == bcrypt
  {
    if es != [] {
      var s0 := Initial(now, bcrypt);
      HashingStays(now, bcrypt, es[..|es| - 1]);
      InitialInv(now, bcrypt);
      RunInv(s0, es[..|es| - 1]);
      EventGuarantee(Run(s0, es[..|es| - 1]), es[|es| - 1]);
    }
  }

  /** Operation id is at its check of share r at event n, and what it read lets it in, with or without a password. */
  ghost predicate LetInAt(s0: Sys, es: seq<Event>, n: nat, id: nat, r: Ref, needsPw: bool)
    requires n < |es|
  {
    var s := Run(s0, es[..n]);
    && id in s.ops && s.ops[id].RdCheck? && s.ops[id].ref == r && r in s.w.born && s.ops[id].meta == s.w.born[r]
    && !Expiry.Lapsed(s.w.born[r].expires, s.w.now)
    && (needsPw ==> Opens(s.w.bcrypt, s.w.born[r].pwHash, s.ops[id].pw))
  }

  /** Entitled at some event n, for the requests k and j. */
  ghost predicate Entitled(s0: Sys, es: seq<Event>, n: nat, id: nat, r: Ref, needsPw: bool)
    requires n < |es|
  {
    exists k, j :: 0 <= k < n && 0 <= j < n && EntitledAt(s0, es, n, k, j, id, r, needsPw)
  }

  ghost predicate WasEntitled(s0: Sys, es: seq<Event>, id: nat, r: Ref, needsPw: bool) {
    exists n :: 0 <= n < |es| && Entitled(s0, es, n, id, r, needsPw)
  }

  lemma LetInIsEntitled(now: int, bcrypt: (string, string) -> bool, es: seq<Event>, n: nat, id: nat, r: Ref,
                        needsPw: bool)
    requires n < |es| && LetInAt(Initial(now, bcrypt), es, n, id, r, needsPw)
    ensures Entitled(Initial(now, bcrypt), es, n, id, r, needsPw)
  {
    var s0 := Initial(now, bcrypt);
    var s := Run(s0, es[..n]);
    EveryOpWasAsked(now, bcrypt, es[..n], id);
    var k :| 0 <= k < n && ServesAt(s0, es[..n], k, id, s.ops[id]);
    RowWasRequested(now, bcrypt, es[..n], r);
    var j := CreatedIsCreation(s0, es[..n], r, s.w.born[r]);
    AskedBefore(s0, es, n, k);
    CreationBefore(s0, es, n, j, r);
    HashingStays(now, bcrypt, es[..n]);
    NotLapsedIsInTime(s.w.born[r], es[j].req, Run(s0, es[..j]).w.now, s.w.now);
    assert EntitledAt(s0, es, n, k, j, id, r, needsPw);
  }

  lemma AdmittedIsLetIn(s0: Sys, es: seq<Event>, n: nat, id: nat, r: Ref)
    requires n < |es| && AdmittedAt(s0, es, n, id, r)
    ensures LetInAt(s0, es, n, id, r, true)
  {
  }

  /**
   Content, on requests.  An operation that hands out, or has handed out, content of share r belongs to a
   read request for that share whose password attempt opens it, made while the share was in time; and it is
   of the kind that was requested.
   */
  lemma ContentWasEntitled(now: int, bcrypt: (string, string) -> bool, es: seq<Event>, id: nat, r: Ref)
    requires var s := Run(Initial(now, bcrypt), es); id in s.ops && PastChecks(s.ops[id], r)
    ensures WasEntitled(Initial(now, bcrypt), es, id, r, true)
    ensures WasAsked(Initial(now, bcrypt), es, id, Run(Initial(now, bcrypt), es).ops[id])
  {
    ContentIsAdmitted(now, bcrypt, es, id, r);
    var n :| 0 <= n < |es| && AdmittedAt(Initial(now, bcrypt), es, n, id, r);
    AdmittedIsLetIn(Initial(now, bcrypt), es, n, id, r);
    LetInIsEntitled(now, bcrypt, es, n, id, r, true);
    EveryOpWasAsked(now, bcrypt, es, id);
  }

  lemma HolderKnows(s: Sys, id: nat, r: Ref)
    requires Inv(s) && id in s.ops && HandsOut(s.ops[id], r)
    ensures r in s.w.born
  {
    assert OpInv(s.w, id, s.ops[id]);
  }

  lemma OneUseIsKept(s0: Sys, es: seq<Event>, j: nat)
    requires Inv(s0) && j < |es| && AskedAt(s0, es, j) && Valid(es[j].req) && ShareOf(es[j].req) in Run(s0, es).w.born
    ensures Run(s0, es).w.born[ShareOf(es[j].req)].oneUse == es[j].req.oneUse
  {
    RowDescribesRequest(s0, es, j);
  }

  /**
   One use, on requests.  Of all read requests ever made for a share that was requested as one-use, the
   content of a file or paste, or the ZIP of a bucket, is handed out to one at most.
   */
  lemma OneUseIsOneDelivery(now: int, bcrypt: (string, string) -> bool, es: seq<Event>, j: nat, a: nat, b: nat)
    requires j < |es| && AskedAt(Initial(now, bcrypt), es, j) && Valid(es[j].req) && es[j].req.oneUse
    requires var t := Run(Initial(now, bcrypt), es); var r := ShareOf(es[j].req);
             a in t.ops && HandsOut(t.ops[a], r) && b in t.ops && HandsOut(t.ops[b], r)
    ensures a == b
  {
    var s0 := Initial(now, bcrypt);
    var t, r := Run(s0, es), ShareOf(es[j].req);
    InitialInv(now, bcrypt);
    RunInv(s0, es);
    HolderKnows(t, a, r);
    OneUseIsKept(s0, es, j);
    DelivererIsMarker(t, a, r);
    DelivererIsMarker(t, b, r);
  }

  /* ---------- metadata ---------- */

  /** The step that accepts a metadata read is a check that lets it in: a bucket's with its password. */
  lemma StepToAccepted(w: World, id: nat, op: Op, c: Choice, r: Ref, meta: Meta, files: seq<BFile>)
    requires StepOp(w, id, op, c).1 == Done(Accepted(r, meta, files)) && !op.Done?
    ensures op.RdCheck? && op.ref == r && op.goal.MetaOnly? && op.meta == meta && op.files == files
    ensures !Expiry.Lapsed(meta.expires, w.now)
    ensures !r.kind.FileShare? ==> Opens(w.bcrypt, meta.pwHash, op.pw)
  {
  }

  /** At event n operation id, at its check, carried this metadata and this list, and was let in. */
  ghost predicate AcceptedAt(s0: Sys, es: seq<Event>, n: nat, id: nat, r: Ref, meta: Meta, files: seq<BFile>)
    requires n < |es|
  {
    && LetInAt(s0, es, n, id, r, !r.kind.FileShare?)
    && Run(s0, es[..n]).ops[id].meta == meta && Run(s0, es[..n]).ops[id].files == files
  }

  ghost predicate WasAccepted(s0: Sys, es: seq<Event>, id: nat, r: Ref, meta: Meta, files: seq<BFile>) {
    exists n :: 0 <= n < |es| && AcceptedAt(s0, es, n, id, r, meta, files)
  }

  lemma AcceptedBefore(s0: Sys, es: seq<Event>, id: nat, r: Ref, meta: Meta, files: seq<BFile>)
    requires es != [] && WasAccepted(s0, es[..|es| - 1], id, r, meta, files)
    ensures WasAccepted(s0, es, id, r, meta, files)
  {
    var p := |es| - 1;
    var n :| 0 <= n < p && AcceptedAt(s0, es[..p], n, id, r, meta, files);
    assert es[..p][..n] == es[..n];
    assert AcceptedAt(s0, es, n, id, r, meta, files);
  }

  lemma EventToAccepted(s: Sys, e: Event, id: nat, r: Ref, meta: Meta, files: seq<BFile>)
    requires id in Step(s, e).ops && Step(s, e).ops[id] == Done(Accepted(r, meta, files))
    requires !(id in s.ops && s.ops[id] == Done(Accepted(r, meta, files)))
    ensures id in s.ops && s.ops[id].RdCheck? && s.ops[id].ref == r
    ensures s.ops[id].meta == meta && s.ops[id].files == files && !Expiry.Lapsed(meta.expires, s.w.now)
    ensures !r.kind.FileShare? ==> Opens(s.w.bcrypt, meta.pwHash, s.ops[id].pw)
  {
    if e.Advance? && e.id == id && id in s.ops {
      StepToAccepted(s.w, id, s.ops[id], e.choice, r, meta, files);
    }
  }

  lemma {:induction false} AcceptedWasChecked(now: int, bcrypt: (string, string) -> bool, es: seq<Event>, id: nat,
                                              r: Ref, meta: Meta, files: seq<BFile>)
    requires var t := Run(Initial(now, bcrypt), es); id in t.ops && t.ops[id] == Done(Accepted(r, meta, files))
    ensures WasAccepted(Initial(now, bcrypt), es, id, r, meta, files)
  {
    var s0 := Initial(now, bcrypt);
    if es != [] {
      var n := |es| - 1;
      var s := Run(s0, es[..n]);
      if id in s.ops && s.ops[id] == Done(Accepted(r, meta, files)) {
        AcceptedWasChecked(now, bcrypt, es[..n], id, r, meta, files);
        AcceptedBefore(s0, es, id, r, meta, files);
      } else {
        EventToAccepted(s, es[n], id, r, meta, files);
        InitialInv(now, bcrypt);
        RunInv(s0, es[..n]);
        CheckerKnows(s, id);
        assert AcceptedAt(s0, es, n, id, r, meta, files);
      }
    }
  }

  /** Event q is operation id's query for the files of bucket r, and this is what it found. */
  ghost predicate FoundAt(s0: Sys, es: seq<Event>, q: nat, id: nat, r: Ref, files: seq<BFile>)
    requires q < |es|
  {
    var s := Run(s0, es[..q]);
    && es[q] == Advance(id, Succeed) && id in s.ops && s.ops[id].RdFiles? && s.ops[id].ref == r
    && files == FilesOf(s.w.bfiles, r.slug)
  }

  ghost predicate WasFound(s0: Sys, es: seq<Event>, id: nat, r: Ref, files: seq<BFile>) {
    exists q :: 0 <= q < |es| && FoundAt(s0, es, q, id, r, files)
  }

  lemma FoundBefore(s0: Sys, es: seq<Event>, p: nat, id: nat, r: Ref, files: seq<BFile>)
    requires p <= |es| && WasFound(s0, es[..p], id, r, files)
    ensures WasFound(s0, es, id, r, files)
  {
    var q :| 0 <= q < p && FoundAt(s0, es[..p], q, id, r, files);
    assert es[..p][..q] == es[..q];
    assert FoundAt(s0, es, q, id, r, files);
  }

  lemma StepToCheck(w: World, id: nat, op: Op, c: Choice)
    requires StepOp(w, id, op, c).1.RdCheck? && !op.RdCheck?
    ensures var next := StepOp(w, id, op, c).1;
            && (op.RdRow? || op.RdFiles?) && op.ref == next.ref
            && (op.RdRow? ==> !op.ref.kind.BucketShare? && next.files == SingleFile(op.ref, next.meta))
            && (op.RdFiles? ==> c.Succeed? && next.files == FilesOf(w.bfiles, op.ref.slug))
  {
  }

  lemma CheckStays(w: World, id: nat, op: Op, c: Choice)
    requires op.RdCheck?
    ensures !StepOp(w, id, op, c).1.RdCheck?
  {
  }

  /** A bucket read at its check carries the list its own file query found. */
  lemma {:induction false} CheckedListWasFound(now: int, bcrypt: (string, string) -> bool, es: seq<Event>, id: nat)
    requires var t := Run(Initial(now, bcrypt), es);
             id in t.ops && t.ops[id].RdCheck? && t.ops[id].ref.kind.BucketShare?
    ensures var op := Run(Initial(now, bcrypt), es).ops[id]; WasFound(Initial(now, bcrypt), es, id, op.ref, op.files)
  {
    var s0 := Initial(now, bcrypt);
    if es != [] {
      var n := |es| - 1;
      var s := Run(s0, es[..n]);
      var op := Run(s0, es).ops[id];
      if es[n].Advance? && es[n].id == id && id in s.ops {
        if s.ops[id].RdCheck? {
          CheckStays(s.w, id, s.ops[id], es[n].choice);
        } else {
          StepToCheck(s.w, id, s.ops[id], es[n].choice);
          InitialInv(now, bcrypt);
          RunInv(s0, es[..n]);
          QueriesAreForBuckets(s, id);
          assert FoundAt(s0, es, n, id, op.ref, op.files);
        }
      } else {
        BeginIsNoCheck(s, es[n], id);
        CheckedListWasFound(now, bcrypt, es[..n], id);
        FoundBefore(s0, es, n, id, op.ref, op.files);
      }
    }
  }

  lemma QueriesAreForBuckets(s: Sys, id: nat)
    requires Inv(s) && id in s.ops && s.ops[id].RdFiles?
    ensures s.ops[id].ref.kind.BucketShare?
  {
    assert OpInv(s.w, id, s.ops[id]);
  }

  lemma BeginIsNoCheck(s: Sys, e: Event, id: nat)
    requires id in Step(s, e).ops && Step(s, e).ops[id].RdCheck? && !(e.Advance? && e.id == id && id in s.ops)
    ensures id in s.ops && s.ops[id] == Step(s, e).ops[id]
  {
  }

  /** A file read at its check lists the file itself. */
  lemma CheckedFileIsItself(s: Sys, id: nat)
    requires Inv(s) && id in s.ops && s.ops[id].RdCheck? && s.ops[id].ref.kind.FileShare?
    ensures var op := s.ops[id];
            op.meta.info.FileInfo? &&
            op.files == [BFile(op.ref.slug, op.meta.info.filename, op.meta.info.size, op.meta.info.mime)]
  {
    assert OpInv(s.w, id, s.ops[id]);
    assert BornFits(s.w, s.ops[id].ref);
  }

  lemma ListIsRight(now: int, bcrypt: (string, string) -> bool, es: seq<Event>, id: nat, r: Ref)
    requires var t := Run(Initial(now, bcrypt), es); id in t.ops && t.ops[id].RdCheck? && t.ops[id].ref == r
    ensures var op := Run(Initial(now, bcrypt), es).ops[id];
            && (r.kind.BucketShare? ==> WasFound(Initial(now, bcrypt), es, id, r, op.files))
            && (r.kind.FileShare? ==>
                  op.meta.info.FileInfo? &&
                  op.files == [BFile(r.slug, op.meta.info.filename, op.meta.info.size, op.meta.info.mime)])
  {
    if r.kind.BucketShare? {
      CheckedListWasFound(now, bcrypt, es, id);
    } else if r.kind.FileShare? {
      InitialInv(now, bcrypt);
      RunInv(Initial(now, bcrypt), es);
      CheckedFileIsItself(Run(Initial(now, bcrypt), es), id);
    }
  }

  /** What was accepted at event n was entitled, and carries the row of the share and the right list. */
  lemma AcceptedIsEntitled(now: int, bcrypt: (string, string) -> bool, es: seq<Event>, n: nat, id: nat, r: Ref,
                           meta: Meta, files: seq<BFile>)
    requires n < |es| && AcceptedAt(Initial(now, bcrypt), es, n, id, r, meta, files)
    ensures Entitled(Initial(now, bcrypt), es, n, id, r, !r.kind.FileShare?)
    ensures WasCreated(Initial(now, bcrypt), es, r, meta)
    ensures r.kind.BucketShare? ==> WasFound(Initial(now, bcrypt), es, id, r, files)
    ensures r.kind.FileShare? ==>
              meta.info.FileInfo? && files == [BFile(r.slug, meta.info.filename, meta.info.size, meta.info.mime)]
  {
    var s0 := Initial(now, bcrypt);
    LetInIsEntitled(now, bcrypt, es, n, id, r, !r.kind.FileShare?);
    RowWasRequested(now, bcrypt, es[..n], r);
    CreatedStays(s0, es, n, r, meta);
    ListIsRight(now, bcrypt, es[..n], id, r);
    if r.kind.BucketShare? { FoundBefore(s0, es, n, id, r, files); }
  }

  lemma CreatedStays(s0: Sys, es: seq<Event>, n: nat, r: Ref, meta: Meta)
    requires n <= |es| && WasCreated(s0, es[..n], r, meta)
    ensures WasCreated(s0, es, r, meta)
  {
    var j := CreatedIsCreation(s0, es[..n], r, meta);
    CreationBefore(s0, es, n, j, r);
    assert CreatedBy(s0, es, j, r, meta);
  }

  /**
   Metadata, on requests.  Metadata of share r that a read has been answered with belongs to a metadata
   request for r, made while the share was in time and, for a bucket, with an attempt that opens it; it is
   the row its creation request describes, with the files that the read's own query found in the table, or
   for a file with that one file.
   */
  lemma MetadataWasEntitled(now: int, bcrypt: (string, string) -> bool, es: seq<Event>, id: nat, r: Ref, meta: Meta,
                            files: seq<BFile>)
    requires var t := Run(Initial(now, bcrypt), es); id in t.ops && t.ops[id] == Done(Accepted(r, meta, files))
    ensures WasEntitled(Initial(now, bcrypt), es, id, r, !r.kind.FileShare?)
    ensures WasAsked(Initial(now, bcrypt), es, id, Done(Accepted(r, meta, files)))
    ensures WasCreated(Initial(now, bcrypt), es, r, meta)
    ensures r.kind.BucketShare? ==> WasFound(Initial(now, bcrypt), es, id, r, files)
    ensures r.kind.FileShare? ==>
              meta.info.FileInfo? && files == [BFile(r.slug, meta.info.filename, meta.info.size, meta.info.mime)]
  {
    AcceptedWasChecked(now, bcrypt, es, id, r, meta, files);
    var n :| 0 <= n < |es| && AcceptedAt(Initial(now, bcrypt), es, n, id, r, meta, files);
    AcceptedIsEntitled(now, bcrypt, es, n, id, r, meta, files);
    EveryOpWasAsked(now, bcrypt, es, id);
  }
}
