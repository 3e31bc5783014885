/** One-use shares: at most one delivery, and a consumed mark that is sound and permanent. */
module Delivery {
  import opened Shares
  import opened Machine
  import opened Invariant
  import opened Effects
  import opened Steps
  import opened Reachable
  import Expiry

  /** The operation has passed the consume step of share r: it hands out content, or has done so. */
  predicate HandsOut(op: Op, r: Ref) {
    match op
    case RdSend(q, goal, _, _, _) => q == r && goal.Fetch?
    case Done(Sent(q, goal, _, _, _)) => q == r && goal.Fetch?
    case Done(Broken(q, goal, _, _, _)) => q == r && goal.Fetch?
    case _ => false
  }

  /** Having handed out content is never undone. */
  lemma HandsOutStays(s: Sys, e: Event, id: nat, r: Ref)
    requires id in s.ops && HandsOut(s.ops[id], r)
    ensures id in Step(s, e).ops && HandsOut(Step(s, e).ops[id], r)
  {
  }

  lemma {:induction false} HandsOutForever(s: Sys, es: seq<Event>, id: nat, r: Ref)
    requires id in s.ops && HandsOut(s.ops[id], r)
    ensures id in Run(s, es).ops && HandsOut(Run(s, es).ops[id], r)
  {
    if es != [] {
      HandsOutForever(s, es[..|es| - 1], id, r);
      HandsOutStays(Run(s, es[..|es| - 1]), es[|es| - 1], id, r);
    }
  }

  /** The mark names the only operation that may deliver a one-use share. */
  lemma DelivererIsMarker(s: Sys, id: nat, r: Ref)
    requires Inv(s) && id in s.ops && HandsOut(s.ops[id], r)
    requires r in s.w.born && s.w.born[r].oneUse
    ensures r in s.w.marker && s.w.marker[r].op == id
  {
    assert OpInv(s.w, id, s.ops[id]);
  }

  /**
   At-most-once delivery.  In every run, whatever the interleaving and the faults, two operations
   that ever hand out a one-use file, paste or bucket ZIP are the same operation.
   */
  lemma AtMostOnce(now: int, bcrypt: (string, string) -> bool, es: seq<Event>, m: nat, n: nat, i: nat, j: nat, r: Ref)
    requires m <= n <= |es|
    requires var s := Run(Initial(now, bcrypt), es[..m]);
             r in s.w.born && s.w.born[r].oneUse && i in s.ops && HandsOut(s.ops[i], r)
    requires var t := Run(Initial(now, bcrypt), es[..n]); j in t.ops && HandsOut(t.ops[j], r)
    ensures i == j
  {
    var s0 := Initial(now, bcrypt);
    var s, t := Run(s0, es[..m]), Run(s0, es[..n]);
    InitialInv(now, bcrypt);
    RunInv(s0, es[..m]);
    RunInv(s0, es[..n]);
    RunSplits(s0, es, m, n);
    HandsOutForever(s, es[m..n], i, r);
    BornForever(s, es[m..n], r);
    DelivererIsMarker(t, i, r);
    DelivererIsMarker(t, j, r);
  }

  /** A run can be cut at any point. */
  lemma {:induction false} RunSplits(s: Sys, es: seq<Event>, m: nat, n: nat)
    requires m <= n <= |es|
    ensures Run(s, es[..n]) == Run(Run(s, es[..m]), es[m..n])
  {
    if n > m {
      RunSplits(s, es, m, n - 1);
      assert es[..n][..n - 1] == es[..n - 1];
      assert es[m..n][..n - 1 - m] == es[m..n - 1];
    }
  }

  /** Every event gives the guarantee to the operations that do not move. */
  lemma EventGuarantee(s: Sys, e: Event)
    requires Inv(s)
    ensures exists a :: Guarantee(s.w, Step(s, e).w, a)
  {
    var w' := Step(s, e).w;
    if e.Tick? {
      TimePasses(s.w, e.d, 0);
      assert Guarantee(s.w, w', 0);
    } else if e.Start? && e.id !in s.ops && Possible(s.w, e.req) {
      BeginIsGood(s.w, e.id, e.req);
      assert Guarantee(s.w, w', e.id);
    } else if e.Advance? && e.id in s.ops {
      StepIsGood(s.w, e.id, s.ops[e.id], e.choice);
      assert Guarantee(s.w, w', e.id);
    } else {
      NothingHappens(s.w, 0);
      assert Guarantee(s.w, w', 0);
    }
  }

  lemma {:induction false} BornForever(s: Sys, es: seq<Event>, r: Ref)
    requires Inv(s) && r in s.w.born
    ensures r in Run(s, es).w.born && Run(s, es).w.born[r] == s.w.born[r]
  {
    if es != [] {
      BornForever(s, es[..|es| - 1], r);
      RunInv(s, es[..|es| - 1]);
      EventGuarantee(Run(s, es[..|es| - 1]), es[|es| - 1]);
    }
  }

  /* ---------- the mark ---------- */

  lemma CreationMarksNothing(w: World, id: nat, op: Op, c: Choice, r: Ref)
    requires Creates(op) && r in w.rows
    ensures r in CreationStep(w, id, op, c).0.rows && CreationStep(w, id, op, c).0.rows[r].mark == w.rows[r].mark
  {
  }

  /** A removal moves the tables in one place only: the row deletion of the share it is handling. */
  lemma RemovalRows(w: World, op: Op, c: Choice)
    requires Removes(op)
    ensures var w' := RemovalStep(w, op, c).0;
            || (w'.rows == w.rows && w'.bfiles == w.bfiles)
            || (op.Purge? && op.items != [] && w'.rows == w.rows - {op.items[0].ref} &&
                w'.bfiles == DeleteRow(w, op.items[0].ref).bfiles)
  {
    if op.Purge? {
      PurgeRows(w, op.why, op.items, c);
    } else {
      ListingRows(w, op, c);
    }
  }

  lemma PurgeRows(w: World, why: Why, items: seq<Item>, c: Choice)
    ensures var w' := PurgeStep(w, why, items, c).0;
            || (w'.rows == w.rows && w'.bfiles == w.bfiles)
            || (items != [] && w'.rows == w.rows - {items[0].ref} && w'.bfiles == DeleteRow(w, items[0].ref).bfiles)
  {
    if items != [] && items[0].pos < |items[0].files| {
      BlobDeletionRows(w, why, items, c);
    } else if items != [] {
      RowDeletionRows(w, why, items, c);
    }
  }

  lemma BlobDeletionRows(w: World, why: Why, items: seq<Item>, c: Choice)
    requires items != [] && items[0].pos < |items[0].files|
    ensures PurgeBlob(w, why, items, c).0.rows == w.rows && PurgeBlob(w, why, items, c).0.bfiles == w.bfiles
  {
  }

  lemma RowDeletionRows(w: World, why: Why, items: seq<Item>, c: Choice)
    requires items != []
    ensures var w' := PurgeRow(w, why, items, c).0;
            w' == DeleteRow(w, items[0].ref) || w' == Blame(w, RowDeleteFailed(items[0].ref))
  {
  }

  lemma ListingRows(w: World, op: Op, c: Choice)
    requires Removes(op) && !op.Purge?
    ensures RemovalStep(w, op, c).0.rows == w.rows && RemovalStep(w, op, c).0.bfiles == w.bfiles
  {
  }

  /** No step but a mark step touches the mark of a row that stays. */
  lemma OnlyMarkStepsMark(w: World, id: nat, op: Op, c: Choice, r: Ref)
    requires r in w.rows && r in StepOp(w, id, op, c).0.rows
    requires StepOp(w, id, op, c).0.rows[r].mark != w.rows[r].mark
    ensures op.RdMark? && op.ref == r && w.rows[r].mark.None?
    ensures StepOp(w, id, op, c).0.rows[r].mark.Some?
  {
    if Creates(op) {
      CreationMarksNothing(w, id, op, c, r);
    } else if Removes(op) {
      RemovalRows(w, op, c);
    }
  }

  lemma MarkerHasPassed(w: World, id: nat, op: Op)
    requires op.RdMark? && OpInv(w, id, op) && RowsOk(w) && op.ref in w.rows
    ensures var meta := w.rows[op.ref].meta;
            meta.oneUse && PasswordOk(w, meta, op.pw) && !Expiry.Lapsed(meta.expires, op.at) && op.at <= w.now
  {
  }

  /** A request's arrival changes nothing but the record of drawn slugs. */
  lemma BeginOnlyDraws(w: World, id: nat, req: Request)
    requires Possible(w, req)
    ensures var w' := Begin(w, id, req).0; w' == w.(tickets := w'.tickets)
  {
  }

  lemma OtherEventsKeepRows(s: Sys, e: Event)
    requires !(e.Advance? && e.id in s.ops)
    ensures Step(s, e).w.rows == s.w.rows && Step(s, e).w.bfiles == s.w.bfiles
  {
    if e.Start? && e.id !in s.ops && Possible(s.w, e.req) { BeginOnlyDraws(s.w, e.id, e.req); }
  }

  /**
   The mark of a living row changes only from unset to set, only on a one-use share, and only in the
   mark step of a Get or StreamZIP that had passed the expiry test and the password check before.
   */
  lemma MarkIsSound(s: Sys, e: Event, r: Ref)
    requires Inv(s) && r in s.w.rows && r in Step(s, e).w.rows
    requires Step(s, e).w.rows[r].mark != s.w.rows[r].mark
    ensures e.Advance? && e.id in s.ops && s.ops[e.id].RdMark? && s.ops[e.id].ref == r
    ensures s.w.rows[r].mark.None? && Step(s, e).w.rows[r].mark.Some?
    ensures var meta := s.w.rows[r].meta; var op := s.ops[e.id];
            meta.oneUse && PasswordOk(s.w, meta, op.pw) && !Expiry.Lapsed(meta.expires, op.at) && op.at <= s.w.now
  {
    if e.Advance? && e.id in s.ops {
      OnlyMarkStepsMark(s.w, e.id, s.ops[e.id], e.choice, r);
      assert OpInv(s.w, e.id, s.ops[e.id]);
      MarkerHasPassed(s.w, e.id, s.ops[e.id]);
    } else {
      OtherEventsKeepRows(s, e);
    }
  }

  /**
   A mark step is reached only from a Fetch read whose checks pass at this very instant: metadata
   reads, single bucket files, lapsed shares and wrong passwords never get there.
   */
  lemma OnlyCheckedFetchesMark(w: World, id: nat, op: Op, c: Choice)
    requires !op.RdMark? && StepOp(w, id, op, c).1.RdMark?
    ensures op.RdCheck? && op.goal.Fetch? && op.meta.oneUse
    ensures !Expiry.Lapsed(op.meta.expires, w.now) && PasswordOk(w, op.meta, op.pw)
    ensures StepOp(w, id, op, c).0 == w
    ensures StepOp(w, id, op, c).1 == RdMark(op.ref, op.pw, op.meta, op.files, w.now)
  {
  }

  /** Once set, the mark keeps its value for as long as the row lives. */
  lemma {:induction false} MarkIsPermanent(s: Sys, es: seq<Event>, r: Ref)
    requires Inv(s) && r in s.w.rows && s.w.rows[r].mark.Some?
    requires r in Run(s, es).w.rows
    ensures Run(s, es).w.rows[r] == s.w.rows[r]
  {
    if es != [] {
      var es', e := es[..|es| - 1], es[|es| - 1];
      var t := Run(s, es');
      RunInv(s, es');
      BornForever(s, es', r);
      StepInv(t, e);
      EventGuarantee(t, e);
      assert r in t.w.rows;
      MarkIsPermanent(s, es', r);
      if Step(t, e).w.rows[r].mark != t.w.rows[r].mark { MarkIsSound(t, e, r); }
    }
  }

  /* ---------- admission ---------- */

  /** Past the checks of a content read of share r: on the way to the content, or given it. */
  predicate PastChecks(op: Op, r: Ref) {
    match op
    case RdMark(q, _, _, _, _) => q == r
    case RdSend(q, _, _, _, _) => q == r
    case Done(Sent(q, _, _, _, _)) => q == r
    case Done(Broken(q, _, _, _, _)) => q == r
    case _ => false
  }

  /** At event n operation id checks share r, and the share as it was created lets it in right then. */
  ghost predicate AdmittedAt(s0: Sys, es: seq<Event>, n: nat, id: nat, r: Ref)
    requires n < |es|
  {
    var s := Run(s0, es[..n]);
    && id in s.ops && s.ops[id].RdCheck? && s.ops[id].ref == r && r in s.w.born && s.ops[id].meta == s.w.born[r]
    && !Expiry.Lapsed(s.w.born[r].expires, s.w.now) && PasswordOk(s.w, s.w.born[r], s.ops[id].pw)
  }

  lemma StepToContent(w: World, id: nat, op: Op, c: Choice, r: Ref)
    requires PastChecks(StepOp(w, id, op, c).1, r) && !PastChecks(op, r)
    ensures op.RdCheck? && op.ref == r && !Expiry.Lapsed(op.meta.expires, w.now) && PasswordOk(w, op.meta, op.pw)
  {
  }

  lemma EventToContent(s: Sys, e: Event, id: nat, r: Ref)
    requires id in Step(s, e).ops && PastChecks(Step(s, e).ops[id], r)
    requires !(id in s.ops && PastChecks(s.ops[id], r))
    ensures id in s.ops && s.ops[id].RdCheck? && s.ops[id].ref == r
    ensures !Expiry.Lapsed(s.ops[id].meta.expires, s.w.now) && PasswordOk(s.w, s.ops[id].meta, s.ops[id].pw)
  {
    if e.Advance? && e.id == id && id in s.ops { StepToContent(s.w, id, s.ops[id], e.choice, r); }
  }

  /**
   Nothing is handed out unchecked.  Over whole runs an operation that hands out, or has handed out,
   content of any share had, at one instant of the run, the right password for that share as it was
   created, and the share had not lapsed at that instant.
   */
  lemma {:induction false} ContentIsAdmitted(now: int, bcrypt: (string, string) -> bool, es: seq<Event>, id: nat,
                                             r: Ref)
    requires var s := Run(Initial(now, bcrypt), es); id in s.ops && PastChecks(s.ops[id], r)
    ensures exists n :: 0 <= n < |es| && AdmittedAt(Initial(now, bcrypt), es, n, id, r)
  {
    var s0 := Initial(now, bcrypt);
    if es != [] {
      var k := |es| - 1;
      var s := Run(s0, es[..k]);
      if id in s.ops && PastChecks(s.ops[id], r) {
        ContentIsAdmitted(now, bcrypt, es[..k], id, r);
        var n :| 0 <= n < k && AdmittedAt(s0, es[..k], n, id, r);
        assert es[..k][..n] == es[..n];
        assert AdmittedAt(s0, es, n, id, r);
      } else {
        EventToContent(s, es[k], id, r);
        InitialInv(now, bcrypt);
        RunInv(s0, es[..k]);
        CheckerKnows(s, id);
        assert AdmittedAt(s0, es, k, id, r);
      }
    }
  }

  lemma CheckerKnows(s: Sys, id: nat)
    requires Inv(s) && id in s.ops && s.ops[id].RdCheck?
    ensures s.ops[id].ref in s.w.born && s.w.born[s.ops[id].ref] == s.ops[id].meta
  {
    assert OpInv(s.w, id, s.ops[id]);
  }

  /* ---------- marks over whole runs ---------- */

  /** An operation at its mark step for r was, at one event of the run, a Fetch that r let in. */
  lemma {:induction false} MarkerWasAdmitted(now: int, bcrypt: (string, string) -> bool, es: seq<Event>, id: nat,
                                             r: Ref)
    requires var s := Run(Initial(now, bcrypt), es); id in s.ops && s.ops[id].RdMark? && s.ops[id].ref == r
    ensures exists n :: 0 <= n < |es| && FetchedAt(Initial(now, bcrypt), es, n, id, r)
  {
    var s0 := Initial(now, bcrypt);
    if es != [] {
      var k := |es| - 1;
      var s := Run(s0, es[..k]);
      if id in s.ops && s.ops[id].RdMark? {
        MarkStepsStay(s, es[k], id);
        MarkerWasAdmitted(now, bcrypt, es[..k], id, r);
        var n :| 0 <= n < k && FetchedAt(s0, es[..k], n, id, r);
        FetchedBefore(s0, es, k, n, id, r);
      } else {
        EventToMark(s, es[k], id);
        InitialInv(now, bcrypt);
        RunInv(s0, es[..k]);
        CheckerKnows(s, id);
        assert FetchedAt(s0, es, k, id, r);
      }
    }
  }

  /** At event n operation id is a Get or StreamZIP of the one-use share r, and its checks pass right then. */
  ghost predicate FetchedAt(s0: Sys, es: seq<Event>, n: nat, id: nat, r: Ref)
    requires n < |es|
  {
    && AdmittedAt(s0, es, n, id, r)
    && Run(s0, es[..n]).ops[id].goal.Fetch? && Run(s0, es[..n]).w.born[r].oneUse
  }

  lemma FetchedBefore(s0: Sys, es: seq<Event>, k: nat, n: nat, id: nat, r: Ref)
    requires n < k <= |es| && FetchedAt(s0, es[..k], n, id, r)
    ensures FetchedAt(s0, es, n, id, r)
  {
    assert es[..k][..n] == es[..n];
  }

  lemma MarkStepsStay(s: Sys, e: Event, id: nat)
    requires id in s.ops && s.ops[id].RdMark? && id in Step(s, e).ops && Step(s, e).ops[id].RdMark?
    ensures Step(s, e).ops[id] == s.ops[id]
  {
  }

  lemma EventToMark(s: Sys, e: Event, id: nat)
    requires id in Step(s, e).ops && Step(s, e).ops[id].RdMark? && !(id in s.ops && s.ops[id].RdMark?)
    ensures id in s.ops && s.ops[id].RdCheck? && s.ops[id].goal.Fetch? && s.ops[id].meta.oneUse
    ensures s.ops[id].ref == Step(s, e).ops[id].ref
    ensures !Expiry.Lapsed(s.ops[id].meta.expires, s.w.now) && PasswordOk(s.w, s.ops[id].meta, s.ops[id].pw)
  {
    if e.Advance? && e.id == id && id in s.ops { OnlyCheckedFetchesMark(s.w, id, s.ops[id], e.choice); }
  }

  /** The event sets the mark of r: it was unset before. */
  predicate MarksNow(s: Sys, e: Event, r: Ref) {
    && e.Advance? && e.id in s.ops && s.ops[e.id].RdMark? && s.ops[e.id].ref == r
    && r in s.w.rows && s.w.rows[r].mark.None?
    && r in Step(s, e).w.rows && Step(s, e).w.rows[r].mark.Some?
  }

  ghost predicate MarksAt(s0: Sys, es: seq<Event>, k: nat, r: Ref)
    requires k < |es|
  {
    MarksNow(Run(s0, es[..k]), es[k], r)
  }

  /** A row that appears is unmarked. */
  lemma NewRowsUnmarked(w: World, id: nat, op: Op, c: Choice, r: Ref)
    requires r !in w.rows && r in StepOp(w, id, op, c).0.rows
    ensures StepOp(w, id, op, c).0.rows[r].mark.None?
  {
    if Creates(op) {
      CreatedRowsUnmarked(w, id, op, c, r);
    } else if Reads(op) {
      ReadsAddNoRows(w, id, op, c, r);
    } else if Removes(op) {
      RemovalRows(w, op, c);
    }
  }

  lemma CreatedRowsUnmarked(w: World, id: nat, op: Op, c: Choice, r: Ref)
    requires Creates(op) && r !in w.rows && r in CreationStep(w, id, op, c).0.rows
    ensures CreationStep(w, id, op, c).0.rows[r].mark.None?
  {
  }

  lemma ReadsAddNoRows(w: World, id: nat, op: Op, c: Choice, r: Ref)
    requires Reads(op) && r !in w.rows
    ensures r !in ReadStep(w, id, op, c).0.rows
  {
  }

  lemma AppearsUnmarked(s: Sys, e: Event, r: Ref)
    requires r !in s.w.rows && r in Step(s, e).w.rows
    ensures Step(s, e).w.rows[r].mark.None?
  {
    if e.Advance? && e.id in s.ops {
      NewRowsUnmarked(s.w, e.id, s.ops[e.id], e.choice, r);
    } else {
      OtherEventsKeepRows(s, e);
    }
  }

  /** A marked row was marked before, or this very event marks it. */
  lemma MarkComes(s: Sys, e: Event, r: Ref)
    requires Inv(s) && r in Step(s, e).w.rows && Step(s, e).w.rows[r].mark.Some?
    ensures (r in s.w.rows && s.w.rows[r].mark.Some?) || MarksNow(s, e, r)
  {
    if r !in s.w.rows {
      AppearsUnmarked(s, e, r);
    } else if s.w.rows[r].mark.None? {
      MarkIsSound(s, e, r);
    }
  }

  /** The mark is set by event k, and the same operation had been let in as a Fetch at event n before. */
  ghost predicate SoundlyMarked(s0: Sys, es: seq<Event>, n: nat, k: nat, r: Ref)
    requires n < k < |es|
  {
    MarksAt(s0, es, k, r) && FetchedAt(s0, es, n, es[k].id, r)
  }

  /**
   Marks are sound over whole runs.  A marked row was marked by one event, in the mark step of an
   operation that at an earlier event was a Get or StreamZIP with the right password while the share had
   not lapsed: no metadata read, single-file read, refused read, creation or removal ever marks.
   */
  lemma {:induction false} MarkedRowsWereFetched(now: int, bcrypt: (string, string) -> bool, es: seq<Event>, r: Ref)
    requires var s := Run(Initial(now, bcrypt), es); r in s.w.rows && s.w.rows[r].mark.Some?
    ensures exists n, k :: 0 <= n < k < |es| && SoundlyMarked(Initial(now, bcrypt), es, n, k, r)
  {
    var s0 := Initial(now, bcrypt);
    if es != [] {
      var k := |es| - 1;
      InitialInv(now, bcrypt);
      RunInv(s0, es[..k]);
      MarkComes(Run(s0, es[..k]), es[k], r);
      if MarksAt(s0, es, k, r) {
        MarkerWasAdmitted(now, bcrypt, es[..k], es[k].id, r);
        var n :| 0 <= n < k && FetchedAt(s0, es[..k], n, es[k].id, r);
        FetchedBefore(s0, es, k, n, es[k].id, r);
        assert SoundlyMarked(s0, es, n, k, r);
      } else {
        MarkedRowsWereFetched(now, bcrypt, es[..k], r);
        var n, m :| 0 <= n < m < k && SoundlyMarked(s0, es[..k], n, m, r);
        MarkedBefore(s0, es, k, n, m, r);
      }
    }
  }

  lemma MarkedBefore(s0: Sys, es: seq<Event>, k: nat, n: nat, m: nat, r: Ref)
    requires n < m < k <= |es| && SoundlyMarked(s0, es[..k], n, m, r)
    ensures SoundlyMarked(s0, es, n, m, r)
  {
    assert es[..k][..m] == es[..m];
    FetchedBefore(s0, es, k, n, es[m].id, r);
  }
}
