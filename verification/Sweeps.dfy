/** What a sweep achieves: the shares it lists go, with the blobs it lists for them. */
module Sweeps {
  import opened Shares
  import opened Machine
  import opened Invariant
  import opened Reachable
  import opened Delivery
  import Expiry

  /* ---------- what is listed is handled ---------- */

  /** The shares a sweep has listed so far, the blobs it has listed for them, and what is still to do. */
  function ListedBy(op: Op): set<Ref> {
    match op
    case SwList(why) => if why.BySweep? then why.listed else {}
    case SwFiles(why, _, _) => if why.BySweep? then why.listed else {}
    case Purge(why, _) => if why.BySweep? then why.listed else {}
    case Done(Swept(listed, _)) => listed
    case _ => {}
  }

  function KeysBy(op: Op): set<string> {
    match op
    case SwList(why) => if why.BySweep? then why.keys else {}
    case SwFiles(why, _, _) => if why.BySweep? then why.keys else {}
    case Purge(why, _) => if why.BySweep? then why.keys else {}
    case Done(Swept(_, keys)) => keys
    case _ => {}
  }

  function Left(op: Op): seq<Item> {
    if op.Purge? then op.items else []
  }

  ghost predicate RowHandled(w: World, op: Op, r: Ref) {
    r in ListedBy(op) ==> r !in w.rows || AwaitsRow(Left(op), r)
  }

  ghost predicate BlobHandled(w: World, op: Op, k: string) {
    k in KeysBy(op) ==> k !in w.blobs || Awaits(Left(op), k)
  }

  /** With choice c, this very step is the failing deletion of the row of r. */
  predicate FailsRow(op: Op, c: Choice, r: Ref) {
    && op.Purge? && op.items != [] && op.items[0].ref == r && op.items[0].pos >= |op.items[0].files|
    && !c.Succeed?
  }

  /** With choice c, this very step is the failing deletion of blob k. */
  predicate FailsBlob(op: Op, c: Choice, k: string) {
    && op.Purge? && op.items != [] && op.items[0].pos < |op.items[0].files|
    && op.items[0].files[op.items[0].pos].key == k && !c.Succeed?
  }

  lemma MovedAwaits(items: seq<Item>, moved: seq<Item>, r: Ref, k: string)
    requires items != [] && moved == [items[0].(pos := items[0].pos + 1)] + items[1..]
    ensures AwaitsRow(items, r) ==> AwaitsRow(moved, r)
    ensures Awaits(items, k) ==>
              Awaits(moved, k) || (items[0].pos < |items[0].files| && items[0].files[items[0].pos].key == k)
  {
    if AwaitsRow(items, r) {
      var i :| 0 <= i < |items| && items[i].ref == r;
      assert moved[i].ref == r;
    }
    if Awaits(items, k) {
      var i, j :| 0 <= i < |items| && items[i].pos <= j < |items[i].files| && items[i].files[j].key == k;
      assert i > 0 || j > items[0].pos ==> moved[i].pos <= j && moved[i].files[j].key == k;
    }
  }

  lemma RestAwaits(items: seq<Item>, r: Ref, k: string)
    requires items != []
    ensures AwaitsRow(items, r) ==> items[0].ref == r || AwaitsRow(items[1..], r)
    ensures Awaits(items, k) && items[0].pos >= |items[0].files| ==> Awaits(items[1..], k)
  {
    if AwaitsRow(items, r) {
      var i :| 0 <= i < |items| && items[i].ref == r;
      assert i > 0 ==> items[1..][i - 1].ref == r;
    }
    if Awaits(items, k) && items[0].pos >= |items[0].files| {
      var i, j :| 0 <= i < |items| && items[i].pos <= j < |items[i].files| && items[i].files[j].key == k;
      assert items[1..][i - 1].files[j].key == k;
    }
  }

  /** Step `next` of op, under choice c, leaves what was handled handled, unless it is the failing call. */
  ghost predicate Handles(w: World, op: Op, c: Choice, next: (World, Op), r: Ref, k: string) {
    && (RowHandled(w, op, r) && !FailsRow(op, c, r) ==> RowHandled(next.0, next.1, r))
    && (BlobHandled(w, op, k) && !FailsBlob(op, c, k) ==> BlobHandled(next.0, next.1, k))
  }

  lemma BlobDeletionHandles(w: World, why: Why, items: seq<Item>, c: Choice, r: Ref, k: string)
    requires why.BySweep? && items != [] && items[0].pos < |items[0].files|
    ensures Handles(w, Purge(why, items), c, PurgeBlob(w, why, items, c), r, k)
  {
    MovedAwaits(items, [items[0].(pos := items[0].pos + 1)] + items[1..], r, k);
  }

  lemma RowDeletionHandles(w: World, why: Why, items: seq<Item>, c: Choice, r: Ref, k: string)
    requires why.BySweep? && items != [] && items[0].pos >= |items[0].files|
    ensures Handles(w, Purge(why, items), c, PurgeRow(w, why, items, c), r, k)
  {
    RestAwaits(items, r, k);
  }

  lemma PurgeHandles(w: World, why: Why, items: seq<Item>, c: Choice, r: Ref, k: string)
    requires why.BySweep? && items != []
    ensures Handles(w, Purge(why, items), c, PurgeStep(w, why, items, c), r, k)
  {
    if items[0].pos < |items[0].files| {
      BlobDeletionHandles(w, why, items, c, r, k);
    } else {
      RowDeletionHandles(w, why, items, c, r, k);
    }
  }

  lemma ProceedHandlesRow(w: World, why: Why, items: seq<Item>, r: Ref)
    requires why.BySweep? && (r in why.listed ==> r !in w.rows)
    ensures RowHandled(w, Proceed(why, items), r)
  {
  }

  lemma ProceedHandlesBlob(w: World, why: Why, items: seq<Item>, k: string)
    requires why.BySweep? && (k in why.keys ==> k !in w.blobs)
    requires forall i :: 0 <= i < |items| ==> items[i].pos == 0
    ensures BlobHandled(w, Proceed(why, items), k)
  {
    if items != [] && k in KeysBy(Proceed(why, items)) && k !in why.keys {
      var i, j :| 0 <= i < |items| && 0 <= j < |items[i].files| && items[i].files[j].key == k;
      assert items[i].pos <= j;
    }
  }

  lemma ListHandles(w: World, why: Why, c: Choice, r: Ref, k: string)
    requires why.BySweep?
    ensures Handles(w, SwList(why), c, (w, SweepListStep(w, why, c)), r, k)
  {
    if RowHandled(w, SwList(why), r) && c.Order? && ListsExpired(w, why.kind, c.refs) && !why.kind.BucketShare? {
      ProceedHandlesRow(w, why.(at := w.now), ItemsFor(w, c.refs), r);
    }
    if BlobHandled(w, SwList(why), k) && c.Order? && ListsExpired(w, why.kind, c.refs) && !why.kind.BucketShare? {
      ProceedHandlesBlob(w, why.(at := w.now), ItemsFor(w, c.refs), k);
    }
  }

  lemma FileQueryHandles(w: World, why: Why, todo: seq<Item>, items: seq<Item>, c: Choice, r: Ref, k: string)
    requires why.BySweep? && forall i :: 0 <= i < |items| ==> items[i].pos == 0
    ensures Handles(w, SwFiles(why, todo, items), c, SweepFilesStep(w, why, todo, items, c), r, k)
  {
    if todo == [] && RowHandled(w, SwFiles(why, todo, items), r) { ProceedHandlesRow(w, why, items, r); }
    if todo == [] && BlobHandled(w, SwFiles(why, todo, items), k) { ProceedHandlesBlob(w, why, items, k); }
  }

  lemma OthersListNothing(w: World, id: nat, op: Op, c: Choice)
    requires Creates(op) || Reads(op)
    ensures var next := if Creates(op) then CreationStep(w, id, op, c).1 else ReadStep(w, id, op, c).1;
            ListedBy(next) == {} && KeysBy(next) == {}
  {
  }

  lemma SecretListsNothing(w: World, op: Op, c: Choice)
    requires Removes(op) && (op.DlRow? || op.DlFiles? || op.why.BySecret?)
    ensures ListedBy(RemovalStep(w, op, c).1) == {} && KeysBy(RemovalStep(w, op, c).1) == {}
  {
  }

  lemma RemovalHandles(w: World, op: Op, c: Choice, r: Ref, k: string)
    requires Removes(op) && RemoveInv(w, op)
    ensures Handles(w, op, c, RemovalStep(w, op, c), r, k)
  {
    if op.DlRow? || op.DlFiles? || op.why.BySecret? {
      SecretListsNothing(w, op, c);
    } else {
      match op
      case SwList(why) => ListHandles(w, why, c, r, k);
      case SwFiles(why, todo, items) => FileQueryHandles(w, why, todo, items, c, r, k);
      case Purge(why, items) => PurgeHandles(w, why, items, c, r, k);
    }
  }

  lemma StepHandles(w: World, id: nat, op: Op, c: Choice, r: Ref, k: string)
    requires OpInv(w, id, op)
    ensures Handles(w, op, c, StepOp(w, id, op, c), r, k)
  {
    if Creates(op) || Reads(op) {
      OthersListNothing(w, id, op, c);
    } else if !op.Done? {
      RemovalHandles(w, op, c, r, k);
    }
  }

  /** Rows and blobs a sweep has seen go stay gone, whoever moves. */
  lemma HandledStays(w: World, w': World, a: nat, id: nat, op: Op, r: Ref, k: string)
    requires OpInv(w, id, op) && Guarantee(w, w', a)
    ensures RowHandled(w, op, r) ==> RowHandled(w', op, r)
    ensures BlobHandled(w, op, k) ==> BlobHandled(w', op, k)
  {
    ListedIsKnown(w, id, op, r, k);
  }

  lemma ListedIsKnown(w: World, id: nat, op: Op, r: Ref, k: string)
    requires OpInv(w, id, op)
    ensures r in ListedBy(op) ==> r in w.born
    ensures k in KeysBy(op) ==> Bound(w, k)
  {
  }

  /** Of the row deletions operation id makes in the run, none for r fails. */
  ghost predicate RowCallsSucceed(s0: Sys, es: seq<Event>, id: nat, r: Ref) {
    forall n | 0 <= n < |es| && es[n].Advance? && es[n].id == id ::
      id in Run(s0, es[..n]).ops ==> !FailsRow(Run(s0, es[..n]).ops[id], es[n].choice, r)
  }

  /** Of the blob deletions operation id makes in the run, none for k fails. */
  ghost predicate BlobCallsSucceed(s0: Sys, es: seq<Event>, id: nat, k: string) {
    forall n | 0 <= n < |es| && es[n].Advance? && es[n].id == id ::
      id in Run(s0, es[..n]).ops ==> !FailsBlob(Run(s0, es[..n]).ops[id], es[n].choice, k)
  }

  lemma CallsSucceedBefore(s0: Sys, es: seq<Event>, id: nat, r: Ref, k: string)
    requires es != []
    ensures RowCallsSucceed(s0, es, id, r) ==> RowCallsSucceed(s0, es[..|es| - 1], id, r)
    ensures BlobCallsSucceed(s0, es, id, k) ==> BlobCallsSucceed(s0, es[..|es| - 1], id, k)
  {
    forall n | 0 <= n < |es| - 1 ensures es[..|es| - 1][..n] == es[..n] { }
  }

  lemma OwnEventHandles(s: Sys, id: nat, c: Choice, r: Ref, k: string)
    requires Inv(s) && id in s.ops
    ensures var next := StepOp(s.w, id, s.ops[id], c); Handles(s.w, s.ops[id], c, next, r, k)
  {
    assert OpInv(s.w, id, s.ops[id]);
    StepHandles(s.w, id, s.ops[id], c, r, k);
  }

  lemma OtherEventHandles(s: Sys, e: Event, id: nat, r: Ref, k: string)
    requires Inv(s) && id in s.ops && !(e.Advance? && e.id == id)
    ensures RowHandled(s.w, s.ops[id], r) ==> RowHandled(Step(s, e).w, s.ops[id], r)
    ensures BlobHandled(s.w, s.ops[id], k) ==> BlobHandled(Step(s, e).w, s.ops[id], k)
  {
    assert OpInv(s.w, id, s.ops[id]);
    EventGuarantee(s, e);
    var a :| Guarantee(s.w, Step(s, e).w, a);
    HandledStays(s.w, Step(s, e).w, a, id, s.ops[id], r, k);
  }

  lemma EventHandles(s: Sys, e: Event, id: nat, r: Ref, k: string)
    requires Inv(s) && id in s.ops
    ensures id in Step(s, e).ops
    ensures RowHandled(s.w, s.ops[id], r) && !(e.Advance? && e.id == id && FailsRow(s.ops[id], e.choice, r)) ==>
              RowHandled(Step(s, e).w, Step(s, e).ops[id], r)
    ensures BlobHandled(s.w, s.ops[id], k) && !(e.Advance? && e.id == id && FailsBlob(s.ops[id], e.choice, k)) ==>
              BlobHandled(Step(s, e).w, Step(s, e).ops[id], k)
  {
    if e.Advance? && e.id == id {
      OwnEventHandles(s, id, e.choice, r, k);
    } else {
      OtherEventHandles(s, e, id, r, k);
    }
  }

  lemma BeginListsNothing(w: World, id: nat, req: Request)
    requires Possible(w, req)
    ensures ListedBy(Begin(w, id, req).1) == {} && KeysBy(Begin(w, id, req).1) == {}
  {
  }

  lemma {:induction false} SweepHandles(s0: Sys, es: seq<Event>, id: nat, r: Ref, k: string)
    requires Inv(s0) && id !in s0.ops && id in Run(s0, es).ops
    ensures RowCallsSucceed(s0, es, id, r) ==> RowHandled(Run(s0, es).w, Run(s0, es).ops[id], r)
    ensures BlobCallsSucceed(s0, es, id, k) ==> BlobHandled(Run(s0, es).w, Run(s0, es).ops[id], k)
  {
    var n := |es| - 1;
    var s := Run(s0, es[..n]);
    if id in s.ops {
      SweepHandles(s0, es[..n], id, r, k);
      CallsSucceedBefore(s0, es, id, r, k);
      RunInv(s0, es[..n]);
      EventHandles(s, es[n], id, r, k);
    } else {
      BeginListsNothing(s.w, id, es[n].req);
    }
  }

  /**
   What a finished sweep has done, call by call.  A share it listed is gone unless its own deletion of
   that row failed; a blob it listed is gone unless its own deletion of that blob failed.  What failed
   before, or for others, is no excuse.
   */
  lemma SweptIsGone(s0: Sys, es: seq<Event>, id: nat, r: Ref, k: string)
    requires Inv(s0) && id !in s0.ops
    requires var t := Run(s0, es); id in t.ops && t.ops[id].Done? && t.ops[id].outcome.Swept?
    ensures var t := Run(s0, es);
            r in t.ops[id].outcome.listed && RowCallsSucceed(s0, es, id, r) ==>
              r !in t.w.rows && (r.kind.BucketShare? ==> FilesOf(t.w.bfiles, r.slug) == [])
    ensures var t := Run(s0, es);
            k in t.ops[id].outcome.keys && BlobCallsSucceed(s0, es, id, k) ==> k !in t.w.blobs
  {
    SweepHandles(s0, es, id, r, k);
    DoneIsGone(Run(s0, es).w, Run(s0, es).ops[id], r, k);
    RunInv(s0, es);
    DeadBucketIsEmpty(Run(s0, es).w, r);
  }

  lemma DoneIsGone(w: World, op: Op, r: Ref, k: string)
    requires op.Done? && op.outcome.Swept?
    ensures RowHandled(w, op, r) && r in op.outcome.listed ==> r !in w.rows
    ensures BlobHandled(w, op, k) && k in op.outcome.keys ==> k !in w.blobs
  {
  }

  lemma DeadBucketIsEmpty(w: World, r: Ref)
    requires WorldInv(w)
    ensures r !in w.rows && r.kind.BucketShare? ==> FilesOf(w.bfiles, r.slug) == []
  {
    assert ListOk(w, r.slug);
  }

  /* ---------- what is expired is listed ---------- */

  /** The share is on its way through the sweep's lists, or behind them. */
  ghost predicate OnTheList(op: Op, r: Ref) {
    r in ListedBy(op) || (op.SwFiles? && op.why.BySweep? && (AwaitsRow(op.todo, r) || AwaitsRow(op.items, r)))
  }

  ghost predicate Names(items: seq<Item>, k: string) {
    exists i, j :: 0 <= i < |items| && 0 <= j < |items[i].files| && items[i].files[j].key == k
  }

  ghost predicate KeyOnTheList(op: Op, k: string) {
    k in KeysBy(op) || (op.SwFiles? && op.why.BySweep? && Names(op.items, k))
  }

  /** The file query of the bucket r is still to come. */
  ghost predicate QueryComes(op: Op, r: Ref) {
    op.SwFiles? && op.why.BySweep? && AwaitsRow(op.todo, r)
  }

  predicate FailsQuery(op: Op, c: Choice) {
    op.SwFiles? && op.todo != [] && !c.Succeed?
  }

  /** What a listing finds for share r in the state it reads. */
  function FilesFound(w: World, r: Ref): seq<BFile> {
    match r.kind
    case FileShare => if r in w.rows then SingleFile(r, w.rows[r].meta) else []
    case BucketShare => FilesOf(w.bfiles, r.slug)
    case PasteShare => []
  }

  lemma ProceedLists(why: Why, items: seq<Item>, r: Ref, k: string)
    requires why.BySweep?
    ensures r in why.listed || AwaitsRow(items, r) ==> OnTheList(Proceed(why, items), r)
    ensures k in why.keys || Names(items, k) ==> KeyOnTheList(Proceed(why, items), k)
  {
  }

  lemma QueryLists(w: World, why: Why, todo: seq<Item>, items: seq<Item>, r: Ref, k: string)
    requires why.BySweep? && todo != []
    ensures var op := SwFiles(why, todo, items); var next := SweepFilesStep(w, why, todo, items, Succeed).1;
            && (OnTheList(op, r) ==> OnTheList(next, r))
            && (KeyOnTheList(op, k) ==> KeyOnTheList(next, k))
            && (QueryComes(op, r) ==> QueryComes(next, r) || todo[0].ref == r)
            && (k in Keys(FilesOf(w.bfiles, todo[0].ref.slug)) ==> KeyOnTheList(next, k))
  {
    var found := todo[0].(files := FilesOf(w.bfiles, todo[0].ref.slug));
    var more := items + [found];
    if AwaitsRow(items, r) {
      var i :| 0 <= i < |items| && items[i].ref == r;
      assert more[i].ref == r;
    }
    if AwaitsRow(todo, r) {
      var i :| 0 <= i < |todo| && todo[i].ref == r;
      assert if i == 0 then more[|items|].ref == r else todo[1..][i - 1].ref == r;
    }
    if Names(items, k) {
      var i, j :| 0 <= i < |items| && 0 <= j < |items[i].files| && items[i].files[j].key == k;
      assert more[i].files[j].key == k;
    }
    if k in Keys(found.files) {
      var j :| 0 <= j < |found.files| && found.files[j].key == k;
      assert more[|items|].files[j].key == k;
    }
  }

  function Keys(files: seq<BFile>): set<string> {
    set j | 0 <= j < |files| :: files[j].key
  }

  ghost predicate StaysListed(op: Op, next: Op, r: Ref, k: string) {
    && (OnTheList(op, r) ==> OnTheList(next, r))
    && (KeyOnTheList(op, k) ==> KeyOnTheList(next, k))
  }

  lemma ListKeepsList(w: World, why: Why, c: Choice, r: Ref, k: string)
    requires why.BySweep?
    ensures StaysListed(SwList(why), SweepListStep(w, why, c), r, k)
  {
    if c.Order? && ListsExpired(w, why.kind, c.refs) && !why.kind.BucketShare? {
      ProceedLists(why.(at := w.now), ItemsFor(w, c.refs), r, k);
    }
  }

  lemma PurgeKeepsList(w: World, why: Why, items: seq<Item>, c: Choice, r: Ref, k: string)
    requires why.BySweep?
    ensures StaysListed(Purge(why, items), PurgeStep(w, why, items, c).1, r, k)
  {
  }

  lemma StepKeepsList(w: World, id: nat, op: Op, c: Choice, r: Ref, k: string)
    requires !FailsQuery(op, c)
    ensures StaysListed(op, StepOp(w, id, op, c).1, r, k)
  {
    if (op.SwList? || op.SwFiles? || op.Purge?) && op.why.BySweep? {
      match op
      case SwFiles(why, todo, items) =>
        if todo == [] { ProceedLists(why, items, r, k); } else { QueryLists(w, why, todo, items, r, k); }
      case SwList(why) => ListKeepsList(w, why, c, r, k);
      case Purge(why, items) => PurgeKeepsList(w, why, items, c, r, k);
    }
  }

  /** From event m on, no file query of operation id fails. */
  ghost predicate FileQueriesSucceed(s0: Sys, es: seq<Event>, m: nat, id: nat) {
    forall n | m <= n < |es| && es[n].Advance? && es[n].id == id ::
      id in Run(s0, es[..n]).ops ==> !FailsQuery(Run(s0, es[..n]).ops[id], es[n].choice)
  }

  lemma FileQueriesSucceedBefore(s0: Sys, es: seq<Event>, m: nat, id: nat)
    requires m < |es| && FileQueriesSucceed(s0, es, m, id)
    ensures FileQueriesSucceed(s0, es[..|es| - 1], m, id)
  {
    forall n | m <= n < |es| - 1 ensures es[..|es| - 1][..n] == es[..n] { }
  }

  lemma EventKeepsList(s: Sys, e: Event, id: nat, r: Ref, k: string)
    requires id in s.ops && !(e.Advance? && e.id == id && FailsQuery(s.ops[id], e.choice))
    ensures id in Step(s, e).ops && StaysListed(s.ops[id], Step(s, e).ops[id], r, k)
  {
    if e.Advance? && e.id == id { StepKeepsList(s.w, id, s.ops[id], e.choice, r, k); }
  }

  lemma {:induction false} ListStaysOn(s0: Sys, es: seq<Event>, m: nat, id: nat, r: Ref, k: string)
    requires m <= |es| && FileQueriesSucceed(s0, es, m, id) && id in Run(s0, es[..m]).ops
    ensures id in Run(s0, es).ops && StaysListed(Run(s0, es[..m]).ops[id], Run(s0, es).ops[id], r, k)
    decreases |es|
  {
    if m == |es| {
      assert es[..m] == es;
    } else {
      var n := |es| - 1;
      var s := Run(s0, es[..n]);
      assert es[..n][..m] == es[..m];
      FileQueriesSucceedBefore(s0, es, m, id);
      ListStaysOn(s0, es[..n], m, id, r, k);
      EventKeepsList(s, es[n], id, r, k);
    }
  }

  /** A sweep forgets nothing it has put on record, whichever of its calls fail. */
  predicate Remembers(op: Op, next: Op) {
    ListedBy(op) <= ListedBy(next) && KeysBy(op) <= KeysBy(next)
  }

  lemma ListRemembers(w: World, why: Why, c: Choice)
    requires why.BySweep?
    ensures Remembers(SwList(why), SweepListStep(w, why, c))
  {
  }

  lemma FilesRemember(w: World, why: Why, todo: seq<Item>, items: seq<Item>, c: Choice)
    requires why.BySweep?
    ensures Remembers(SwFiles(why, todo, items), SweepFilesStep(w, why, todo, items, c).1)
  {
  }

  lemma PurgeRemembers(w: World, why: Why, items: seq<Item>, c: Choice)
    requires why.BySweep?
    ensures Remembers(Purge(why, items), PurgeStep(w, why, items, c).1)
  {
  }

  lemma StepRemembers(w: World, id: nat, op: Op, c: Choice)
    ensures Remembers(op, StepOp(w, id, op, c).1)
  {
    if (op.SwList? || op.SwFiles? || op.Purge?) && op.why.BySweep? {
      match op
      case SwList(why) => ListRemembers(w, why, c);
      case SwFiles(why, todo, items) => FilesRemember(w, why, todo, items, c);
      case Purge(why, items) => PurgeRemembers(w, why, items, c);
    }
  }

  lemma {:induction false} RecordStaysOn(s0: Sys, es: seq<Event>, m: nat, id: nat)
    requires m <= |es| && id in Run(s0, es[..m]).ops
    ensures id in Run(s0, es).ops && Remembers(Run(s0, es[..m]).ops[id], Run(s0, es).ops[id])
    decreases |es|
  {
    if m == |es| {
      assert es[..m] == es;
    } else {
      var n := |es| - 1;
      assert es[..n][..m] == es[..m];
      RecordStaysOn(s0, es[..n], m, id);
      var s := Run(s0, es[..n]);
      if es[n].Advance? && es[n].id == id { StepRemembers(s.w, id, s.ops[id], es[n].choice); }
    }
  }

  /** Event n is operation id's query for the files of bucket r. */
  ghost predicate QueriesFiles(s0: Sys, es: seq<Event>, n: nat, id: nat, r: Ref)
    requires n < |es|
  {
    var s := Run(s0, es[..n]);
    && es[n] == Advance(id, Succeed) && id in s.ops
    && s.ops[id].SwFiles? && s.ops[id].why.BySweep? && s.ops[id].todo != [] && s.ops[id].todo[0].ref == r
  }

  lemma QueriedBefore(s0: Sys, es: seq<Event>, p: nat, n: nat, id: nat, r: Ref)
    requires n < p <= |es| && QueriesFiles(s0, es[..p], n, id, r)
    ensures QueriesFiles(s0, es, n, id, r)
  {
    assert es[..p][..n] == es[..n];
  }

  lemma StepKeepsQuery(w: World, id: nat, op: Op, c: Choice, r: Ref)
    requires QueryComes(op, r) && !FailsQuery(op, c)
    ensures c.Succeed? && (op.todo[0].ref == r || QueryComes(StepOp(w, id, op, c).1, r))
  {
    QueryLists(w, op.why, op.todo, op.items, r, "");
  }

  /** In the last event a file query that is due stays due or is made. */
  lemma QueryInEvent(s0: Sys, es: seq<Event>, id: nat, r: Ref)
    requires es != [] && id in Run(s0, es[..|es| - 1]).ops && QueryComes(Run(s0, es[..|es| - 1]).ops[id], r)
    requires var e := es[|es| - 1]; !(e.Advance? && e.id == id && FailsQuery(Run(s0, es[..|es| - 1]).ops[id], e.choice))
    ensures id in Run(s0, es).ops
    ensures QueryComes(Run(s0, es).ops[id], r) || QueriesFiles(s0, es, |es| - 1, id, r)
  {
    var s, e := Run(s0, es[..|es| - 1]), es[|es| - 1];
    if e.Advance? && e.id == id { StepKeepsQuery(s.w, id, s.ops[id], e.choice, r); }
  }

  /** The file query of r is still due, or was made in event m or later. */
  ghost predicate DueOrMade(s0: Sys, es: seq<Event>, m: nat, id: nat, r: Ref) {
    || (id in Run(s0, es).ops && QueryComes(Run(s0, es).ops[id], r))
    || exists n :: m <= n < |es| && QueriesFiles(s0, es, n, id, r)
  }

  lemma DueOrMadeStays(s0: Sys, es: seq<Event>, m: nat, id: nat, r: Ref)
    requires m < |es| && DueOrMade(s0, es[..|es| - 1], m, id, r)
    requires FileQueriesSucceed(s0, es, m, id)
    ensures DueOrMade(s0, es, m, id, r)
  {
    var p := |es| - 1;
    if id in Run(s0, es[..p]).ops && QueryComes(Run(s0, es[..p]).ops[id], r) {
      QueryInEvent(s0, es, id, r);
    } else {
      var n :| m <= n < p && QueriesFiles(s0, es[..p], n, id, r);
      QueriedBefore(s0, es, p, n, id, r);
    }
  }

  /** A file query that is due is made, unless it is still due. */
  lemma {:induction false} QueryIsMade(s0: Sys, es: seq<Event>, m: nat, id: nat, r: Ref)
    requires m <= |es| && FileQueriesSucceed(s0, es, m, id)
    requires id in Run(s0, es[..m]).ops && QueryComes(Run(s0, es[..m]).ops[id], r)
    ensures DueOrMade(s0, es, m, id, r)
    decreases |es|
  {
    if m == |es| {
      assert es[..m] == es;
    } else {
      assert es[..|es| - 1][..m] == es[..m];
      FileQueriesSucceedBefore(s0, es, m, id);
      QueryIsMade(s0, es[..|es| - 1], m, id, r);
      DueOrMadeStays(s0, es, m, id, r);
    }
  }

  /** In event n operation id lists the files of r: for a bucket in a query of its own. */
  ghost predicate ListsFiles(s0: Sys, es: seq<Event>, m: nat, n: nat, id: nat, r: Ref)
    requires m <= n < |es|
  {
    if r.kind.BucketShare? then QueriesFiles(s0, es, n, id, r) else n == m
  }

  /** In event m operation id lists the expired rows of a kind, r among them. */
  ghost predicate ListsShare(s0: Sys, es: seq<Event>, m: nat, id: nat, r: Ref)
    requires m < |es|
  {
    var s := Run(s0, es[..m]);
    && es[m].Advance? && es[m].id == id && es[m].choice.Order?
    && id in s.ops && s.ops[id].SwList? && s.ops[id].why.BySweep?
    && ListsExpired(s.w, s.ops[id].why.kind, es[m].choice.refs)
    && r in s.w.rows && r.kind == s.ops[id].why.kind && Expiry.Sweepable(s.w.rows[r].meta.expires, s.w.now)
  }

  lemma ListingLists(w: World, why: Why, refs: seq<Ref>, r: Ref)
    requires why.BySweep? && ListsExpired(w, why.kind, refs)
    requires r in w.rows && r.kind == why.kind && Expiry.Sweepable(w.rows[r].meta.expires, w.now)
    ensures var next := SweepListStep(w, why, Order(refs));
            && OnTheList(next, r)
            && (r.kind.BucketShare? ==> QueryComes(next, r))
            && (!r.kind.BucketShare? ==> r in ListedBy(next))
            && (r.kind.FileShare? ==> r.slug in KeysBy(next))
  {
    var items := ItemsFor(w, refs);
    var i :| 0 <= i < |refs| && refs[i] == r;
    assert items[i].ref == r;
    if !r.kind.BucketShare? {
      assert r.kind.FileShare? ==> items[i].files[0].key == r.slug;
    }
  }

  lemma ShareListing(s: Sys, e: Event, id: nat, r: Ref)
    requires id in s.ops && e.Advance? && e.id == id && e.choice.Order? && s.ops[id].SwList? && s.ops[id].why.BySweep?
    requires ListsExpired(s.w, s.ops[id].why.kind, e.choice.refs) && r in s.w.rows && r.kind == s.ops[id].why.kind
    requires Expiry.Sweepable(s.w.rows[r].meta.expires, s.w.now)
    ensures id in Step(s, e).ops && OnTheList(Step(s, e).ops[id], r)
    ensures r.kind.BucketShare? ==> QueryComes(Step(s, e).ops[id], r)
    ensures !r.kind.BucketShare? ==> r in ListedBy(Step(s, e).ops[id])
    ensures forall f :: f in FilesFound(s.w, r) && !r.kind.BucketShare? ==> f.key in KeysBy(Step(s, e).ops[id])
  {
    ListingLists(s.w, s.ops[id].why, e.choice.refs, r);
  }

  lemma FileListing(s: Sys, id: nat, r: Ref, f: BFile)
    requires id in s.ops && s.ops[id].SwFiles? && s.ops[id].why.BySweep? && s.ops[id].todo != []
    requires s.ops[id].todo[0].ref == r && r.kind.BucketShare? && f in FilesFound(s.w, r)
    ensures id in Step(s, Advance(id, Succeed)).ops && KeyOnTheList(Step(s, Advance(id, Succeed)).ops[id], f.key)
  {
    var op := s.ops[id];
    var j :| 0 <= j < |FilesFound(s.w, r)| && FilesFound(s.w, r)[j] == f;
    assert f.key in Keys(FilesOf(s.w.bfiles, r.slug));
    QueryLists(s.w, op.why, op.todo, op.items, r, f.key);
  }

  /** No file query of the sweep fails from event m on, if r is a share that needs one. */
  ghost predicate QueriesSucceedFor(s0: Sys, es: seq<Event>, m: nat, id: nat, r: Ref) {
    r.kind.BucketShare? ==> FileQueriesSucceed(s0, es, m, id)
  }

  /** The sweep gets to list the files of a share it has listed. */
  lemma FilesAreListed(s0: Sys, es: seq<Event>, m: nat, id: nat, r: Ref) returns (n: nat)
    requires m < |es| && ListsShare(s0, es, m, id, r) && QueriesSucceedFor(s0, es, m + 1, id, r)
    requires id in Run(s0, es).ops && Run(s0, es).ops[id].Done?
    ensures m <= n < |es| && ListsFiles(s0, es, m, n, id, r)
  {
    n := m;
    if r.kind.BucketShare? {
      assert es[..m + 1][..m] == es[..m];
      ShareListing(Run(s0, es[..m]), es[m], id, r);
      QueryIsMade(s0, es, m + 1, id, r);
      n :| m + 1 <= n < |es| && QueriesFiles(s0, es, n, id, r);
    }
  }

  lemma FileOfBucketIsRecorded(s0: Sys, es: seq<Event>, n: nat, id: nat, r: Ref, f: BFile)
    requires n < |es| && r.kind.BucketShare? && QueriesFiles(s0, es, n, id, r)
    requires FileQueriesSucceed(s0, es, n + 1, id) && f in FilesFound(Run(s0, es[..n]).w, r)
    requires id in Run(s0, es).ops && Run(s0, es).ops[id].Done? && Run(s0, es).ops[id].outcome.Swept?
    ensures f.key in Run(s0, es).ops[id].outcome.keys
  {
    assert es[..n + 1][..n] == es[..n];
    FileListing(Run(s0, es[..n]), id, r, f);
    ListStaysOn(s0, es, n + 1, id, r, f.key);
  }

  lemma OwnFileIsRecorded(s0: Sys, es: seq<Event>, m: nat, id: nat, r: Ref, f: BFile)
    requires m < |es| && !r.kind.BucketShare? && ListsShare(s0, es, m, id, r)
    requires f in FilesFound(Run(s0, es[..m]).w, r)
    requires id in Run(s0, es).ops && Run(s0, es).ops[id].Done? && Run(s0, es).ops[id].outcome.Swept?
    ensures f.key in Run(s0, es).ops[id].outcome.keys
  {
    assert es[..m + 1][..m] == es[..m];
    ShareListing(Run(s0, es[..m]), es[m], id, r);
    RecordStaysOn(s0, es, m + 1, id);
  }

  /** What was listed in event n is on record when the sweep is done. */
  lemma ListedIsRecorded(s0: Sys, es: seq<Event>, m: nat, n: nat, id: nat, r: Ref, f: BFile)
    requires m <= n < |es| && ListsShare(s0, es, m, id, r) && ListsFiles(s0, es, m, n, id, r)
    requires QueriesSucceedFor(s0, es, m + 1, id, r) && f in FilesFound(Run(s0, es[..n]).w, r)
    requires id in Run(s0, es).ops && Run(s0, es).ops[id].Done? && Run(s0, es).ops[id].outcome.Swept?
    ensures f.key in Run(s0, es).ops[id].outcome.keys
  {
    if r.kind.BucketShare? {
      FileOfBucketIsRecorded(s0, es, n, id, r, f);
    } else {
      OwnFileIsRecorded(s0, es, m, id, r, f);
    }
  }

  lemma ShareIsRecorded(s0: Sys, es: seq<Event>, m: nat, id: nat, r: Ref)
    requires m < |es| && ListsShare(s0, es, m, id, r) && QueriesSucceedFor(s0, es, m + 1, id, r)
    requires id in Run(s0, es).ops && Run(s0, es).ops[id].Done? && Run(s0, es).ops[id].outcome.Swept?
    ensures r in Run(s0, es).ops[id].outcome.listed
  {
    assert es[..m + 1][..m] == es[..m];
    ShareListing(Run(s0, es[..m]), es[m], id, r);
    if r.kind.BucketShare? {
      ListStaysOn(s0, es, m + 1, id, r, "");
    } else {
      RecordStaysOn(s0, es, m + 1, id);
    }
  }

  /**
   Completeness.  Once a sweep is done, every share r that was past its expiry when the sweep listed its
   kind is gone, with its file rows, unless this sweep's own deletion of that row failed, and so is every
   blob the sweep found listed for it, unless its own deletion of that blob failed.  What failed earlier,
   for other shares or in other operations is no excuse; only a bucket also needs the sweep's file
   queries, because one failed query ends the listing of all buckets.
   */
  lemma SweepTakesAllExpired(s0: Sys, es: seq<Event>, m: nat, id: nat, r: Ref)
    requires Inv(s0) && id !in s0.ops && m < |es| && ListsShare(s0, es, m, id, r)
    requires QueriesSucceedFor(s0, es, m + 1, id, r)
    requires var t := Run(s0, es); id in t.ops && t.ops[id].Done? && t.ops[id].outcome.Swept?
    ensures var t := Run(s0, es);
            RowCallsSucceed(s0, es, id, r) ==>
              r !in t.w.rows && (r.kind.BucketShare? ==> FilesOf(t.w.bfiles, r.slug) == [])
    ensures exists n :: m <= n < |es| && ListsFiles(s0, es, m, n, id, r) &&
              forall f :: f in FilesFound(Run(s0, es[..n]).w, r) && BlobCallsSucceed(s0, es, id, f.key) ==>
                          f.key !in Run(s0, es).w.blobs
  {
    ShareIsRecorded(s0, es, m, id, r);
    SweptIsGone(s0, es, id, r, "");
    var n := FilesAreListed(s0, es, m, id, r);
    forall f | f in FilesFound(Run(s0, es[..n]).w, r) && BlobCallsSucceed(s0, es, id, f.key)
      ensures f.key !in Run(s0, es).w.blobs
    {
      ListedIsRecorded(s0, es, m, n, id, r, f);
      SweptIsGone(s0, es, id, r, f.key);
    }
  }
}
