/**
 The step machine does what the services do: an operation that runs alone, whichever of its calls fail,
 ends with the answer, the tables and the blobs of `Answers`, which the methods of `Server` are proved
 to give too.
 */
module Solo {
  import opened Wrappers
  import opened Images
  import opened Shares
  import opened Machine
  import opened Batches
  import opened Answers
  import Expiry

  /** Operation `id` makes one step per choice while nobody else moves. */
  function RunOp(w: World, id: nat, op: Op, cs: seq<Choice>): (World, Op) {
    if cs == [] then (w, op)
    else
      var (w', op') := RunOp(w, id, op, cs[..|cs| - 1]);
      StepOp(w', id, op', cs[|cs| - 1])
  }

  /** A solo run is a run of the machine in which only events of that operation occur. */
  lemma {:induction false} SoloIsARun(s: Sys, id: nat, cs: seq<Choice>)
    requires id in s.ops
    ensures var es := seq(|cs|, i requires 0 <= i < |cs| => Advance(id, cs[i]));
            var next := RunOp(s.w, id, s.ops[id], cs);
            Run(s, es) == Sys(next.0, s.ops[id := next.1])
  {
    if cs == [] {
      assert s.ops[id := s.ops[id]] == s.ops;
    } else {
      var n := |cs| - 1;
      var es := seq(|cs|, i requires 0 <= i < |cs| => Advance(id, cs[i]));
      SoloIsARun(s, id, cs[..n]);
      assert es[..n] == seq(n, i requires 0 <= i < n => Advance(id, cs[..n][i]));
    }
  }

  lemma {:induction false} RunOpSplits(w: World, id: nat, op: Op, a: seq<Choice>, b: seq<Choice>)
    ensures RunOp(w, id, op, a + b) == (var mid := RunOp(w, id, op, a); RunOp(mid.0, id, mid.1, b))
  {
    if b == [] {
      assert a + b == a;
    } else {
      RunOpSplits(w, id, op, a, b[..|b| - 1]);
      assert (a + b)[..|a + b| - 1] == a + b[..|b| - 1];
    }
  }

  function Fate(ok: bool): Choice {
    if ok then Succeed else Fail
  }

  function Fates(ok: seq<bool>, n: nat): (cs: seq<Choice>)
    requires n <= |ok|
    ensures |cs| == n && forall i :: 0 <= i < n ==> cs[i] == Fate(ok[i])
  {
    seq(n, i requires 0 <= i < n => Fate(ok[i]))
  }

  /** The tables and blobs of two worlds, as the real fields hold them. */
  predicate SameTables(w: World, rows: map<Ref, Row>, bfiles: seq<BRow>, nextId: int, blobs: map<string, Bytes>) {
    w.rows == rows && w.bfiles == bfiles && w.nextId == nextId && w.blobs == blobs
  }

  /* ---------- creation ---------- */

  lemma DrawStep(w: World, id: nat, slug: string, meta: Meta, inputs: seq<Input>, stored: seq<Member>, key: string)
    requires |stored| < |inputs| && FreshSlug(w, key)
    ensures var m := Member(key, inputs[|stored|]);
            var next := StepOp(w, id, CrWrite(slug, meta, inputs, stored), Draw(key));
            && next.1 == CrWrite(slug, meta, inputs, stored + [m])
            && SameTables(next.0, w.rows, w.bfiles, w.nextId, w.blobs[key := m.input.content])
            && next.0.tickets.Keys == w.tickets.Keys + {key}
  {
  }

  function Draws(draws: seq<Option<string>>, k: nat): (cs: seq<Choice>)
    requires k <= |draws| && forall i :: 0 <= i < k ==> draws[i].Some?
    ensures |cs| == k && forall i :: 0 <= i < k ==> cs[i] == Draw(draws[i].value)
  {
    seq(k, i requires 0 <= i < k => Draw(draws[i].value))
  }

  /** The generator's promise from draw k on: slug-shaped keys, never drawn before, all different. */
  predicate FreshDraws(w: World, draws: seq<Option<string>>, k: nat) {
    && (forall i {:trigger draws[i]} :: k <= i < |draws| && draws[i].Some? ==> FreshSlug(w, draws[i].value))
    && (forall i, j {:trigger draws[i], draws[j]} ::
          k <= i < j < |draws| && draws[i].Some? && draws[j].Some? ==> draws[i] != draws[j])
  }

  lemma FreshDrawsMoves(w: World, w': World, draws: seq<Option<string>>, k: nat)
    requires k < |draws| && draws[k].Some? && FreshDraws(w, draws, k)
    requires w'.tickets.Keys == w.tickets.Keys + {draws[k].value}
    ensures FreshDraws(w', draws, k + 1)
  {
  }

  lemma PutOne(blobs: map<string, Bytes>, ms: seq<Member>, m: Member)
    ensures PutAll(blobs, ms + [m]) == PutAll(blobs, ms)[m.key := m.input.content]
  {
    assert (ms + [m])[..|ms|] == ms;
  }

  /** The machine's write loop stores the members, and the blobs, that CreateBucket's loop stores. */
  lemma {:induction false} SoloWrites(w: World, id: nat, slug: string, meta: Meta, inputs: seq<Input>,
                                      draws: seq<Option<string>>, k: nat)
    requires k <= |inputs| && k <= |draws| && FreshDraws(w, draws, 0) && forall i :: 0 <= i < k ==> draws[i].Some?
    ensures var ms := MembersOf(inputs, draws, k);
            var next := RunOp(w, id, CrWrite(slug, meta, inputs, []), Draws(draws, k));
            && next.1 == CrWrite(slug, meta, inputs, ms)
            && SameTables(next.0, w.rows, w.bfiles, w.nextId, PutAll(w.blobs, ms))
            && FreshDraws(next.0, draws, k)
  {
    var ms := MembersOf(inputs, draws, k);
    if k == 0 {
      assert ms == [];
    } else {
      SoloWrites(w, id, slug, meta, inputs, draws, k - 1);
      var before := RunOp(w, id, CrWrite(slug, meta, inputs, []), Draws(draws, k - 1));
      var had := MembersOf(inputs, draws, k - 1);
      var m := Member(draws[k - 1].value, inputs[k - 1]);
      assert Draws(draws, k)[..k - 1] == Draws(draws, k - 1);
      assert ms == had + [m];
      PutOne(w.blobs, had, m);
      DrawStep(before.0, id, slug, meta, inputs, had, m.key);
      FreshDrawsMoves(before.0, StepOp(before.0, id, before.1, Draw(m.key)).0, draws, k - 1);
    }
  }

  lemma UndoStepMoves(w: World, id: nat, keys: seq<string>, ok: bool)
    requires keys != []
    ensures var next := StepOp(w, id, Undo(keys), Fate(ok));
            && next.1 == UndoNext(keys[1..])
            && SameTables(next.0, w.rows, w.bfiles, w.nextId, if ok then w.blobs - {keys[0]} else w.blobs)
  {
  }

  /** The machine's rollback deletes what DropBlobs deletes. */
  lemma {:induction false} SoloRollback(w: World, id: nat, keys: seq<string>, ok: seq<bool>, k: nat)
    requires k <= |keys| <= |ok|
    ensures var next := RunOp(w, id, UndoNext(keys), Fates(ok, k));
            && next.1 == UndoNext(keys[k..])
            && SameTables(next.0, w.rows, w.bfiles, w.nextId, DropAll(w.blobs, keys[..k], ok))
  {
    if k > 0 {
      SoloRollback(w, id, keys, ok, k - 1);
      var before := RunOp(w, id, UndoNext(keys), Fates(ok, k - 1));
      assert Fates(ok, k)[..k - 1] == Fates(ok, k - 1);
      assert keys[..k][..k - 1] == keys[..k - 1] && keys[k - 1..][1..] == keys[k..];
      UndoStepMoves(before.0, id, keys[k - 1..], ok[k - 1]);
    } else {
      assert keys[0..] == keys;
    }
  }

  /** The tables after AddLoop has inserted the first k members. */
  predicate AddedTo(w: World, slug: string, stored: seq<Member>, k: nat, w': World)
    requires k <= |stored|
  {
    SameTables(w', w.rows, AddAll(w.bfiles, w.nextId, slug, stored[..k]), w.nextId + k, w.blobs)
  }

  lemma AddStepMoves(w: World, w': World, id: nat, slug: string, stored: seq<Member>, k: nat)
    requires k < |stored| && Ref(BucketShare, slug) in w.rows && AddedTo(w, slug, stored, k, w')
    ensures var on := StepOp(w', id, CrAdd(slug, stored, k), Succeed);
            on.1 == CrAdd(slug, stored, k + 1) && AddedTo(w, slug, stored, k + 1, on.0)
  {
    assert stored[..k + 1][..k] == stored[..k];
  }

  /** The machine's AddFile loop inserts the rows AddLoop inserts. */
  lemma {:induction false} SoloAdds(w: World, id: nat, slug: string, stored: seq<Member>, ok: seq<bool>, k: nat)
    requires k <= |stored| && k <= |ok| && (forall i :: 0 <= i < k ==> ok[i]) && Ref(BucketShare, slug) in w.rows
    ensures var next := RunOp(w, id, CrAdd(slug, stored, 0), Fates(ok, k));
            next.1 == CrAdd(slug, stored, k) && AddedTo(w, slug, stored, k, next.0)
  {
    if k > 0 {
      SoloAdds(w, id, slug, stored, ok, k - 1);
      assert Fates(ok, k)[..k - 1] == Fates(ok, k - 1);
      AddStepMoves(w, RunOp(w, id, CrAdd(slug, stored, 0), Fates(ok, k - 1)).0, id, slug, stored, k - 1);
    }
  }

  /* ---------- removal ---------- */

  lemma PurgeBlobMoves(w: World, id: nat, why: Why, items: seq<Item>, ok: bool)
    requires items != [] && items[0].pos < |items[0].files| && (why.BySweep? || items[0].ref.kind.BucketShare?)
    ensures var it := items[0]; var next := StepOp(w, id, Purge(why, items), Fate(ok));
            && next.1 == Purge(why, [it.(pos := it.pos + 1)] + items[1..])
            && SameTables(next.0, w.rows, w.bfiles, w.nextId, if ok then w.blobs - {it.files[it.pos].key} else w.blobs)
  {
  }

  /** The machine handles the blobs of the share at hand as DropBlobs does. */
  lemma {:induction false} SoloItemBlobs(w: World, id: nat, why: Why, items: seq<Item>, ok: seq<bool>, k: nat)
    requires items != [] && items[0].pos == 0 && k <= |items[0].files| <= |ok|
    requires why.BySweep? || items[0].ref.kind.BucketShare?
    ensures var next := RunOp(w, id, Purge(why, items), Fates(ok, k));
            && next.1 == Purge(why, [items[0].(pos := k)] + items[1..])
            && SameTables(next.0, w.rows, w.bfiles, w.nextId, DropAll(w.blobs, FileKeys(items[0].files)[..k], ok))
  {
    if k > 0 {
      SoloItemBlobs(w, id, why, items, ok, k - 1);
      var before := RunOp(w, id, Purge(why, items), Fates(ok, k - 1));
      assert Fates(ok, k)[..k - 1] == Fates(ok, k - 1);
      assert FileKeys(items[0].files)[..k][..k - 1] == FileKeys(items[0].files)[..k - 1];
      var now := [items[0].(pos := k - 1)] + items[1..];
      PurgeBlobMoves(before.0, id, why, now, ok[k - 1]);
      assert now[1..] == items[1..];
    } else {
      assert [items[0].(pos := 0)] + items[1..] == items;
    }
  }

  lemma PurgeRowMoves(w: World, id: nat, why: Why, items: seq<Item>, ok: bool)
    requires items != [] && items[0].pos == |items[0].files| && why.BySweep?
    ensures var r := items[0].ref; var next := StepOp(w, id, Purge(why, items), Fate(ok));
            && next.1 == PurgeNext(why, items[1..])
            && SameTables(next.0, if ok then w.rows - {r} else w.rows,
                          if ok && r.kind.BucketShare? then DropBucket(w.bfiles, r.slug)
                            else w.bfiles, w.nextId, w.blobs)
  {
  }

  /** The choices of one listed share: one per blob, then one for the row. */
  function ItemFates(files: seq<BFile>, blobOk: seq<bool>, deleteOk: bool): seq<Choice>
    requires |files| <= |blobOk|
  {
    Fates(blobOk, |files|) + [Fate(deleteOk)]
  }

  lemma SoloItem(w: World, id: nat, why: Why, items: seq<Item>, blobOk: seq<bool>, deleteOk: bool)
    requires items != [] && items[0].pos == 0 && |items[0].files| <= |blobOk| && why.BySweep?
    ensures var it := items[0];
            var next := RunOp(w, id, Purge(why, items), ItemFates(it.files, blobOk, deleteOk));
            && next.1 == PurgeNext(why, items[1..])
            && SameTables(next.0, if deleteOk then w.rows - {it.ref} else w.rows,
                          if deleteOk && it.ref.kind.BucketShare? then DropBucket(w.bfiles, it.ref.slug) else w.bfiles,
                          w.nextId, DropAll(w.blobs, FileKeys(it.files), blobOk))
  {
    var it := items[0];
    var k := |it.files|;
    SoloItemBlobs(w, id, why, items, blobOk, k);
    assert FileKeys(it.files)[..k] == FileKeys(it.files);
    var mid := RunOp(w, id, Purge(why, items), Fates(blobOk, k));
    var handled := [it.(pos := k)] + items[1..];
    assert handled[1..] == items[1..];
    PurgeRowMoves(mid.0, id, why, handled, deleteOk);
    var cs := ItemFates(it.files, blobOk, deleteOk);
    assert cs[..|cs| - 1] == Fates(blobOk, k);
  }

  function RefsOf(items: seq<Item>): (refs: seq<Ref>)
    ensures |refs| == |items| && forall i :: 0 <= i < |items| ==> refs[i] == items[i].ref
  {
    seq(|items|, i requires 0 <= i < |items| => items[i].ref)
  }

  function ListsOf(items: seq<Item>): (lists: seq<seq<BFile>>)
    ensures |lists| == |items| && forall i :: 0 <= i < |items| ==> lists[i] == items[i].files
  {
    seq(|items|, i requires 0 <= i < |items| => items[i].files)
  }

  function SweepFates(items: seq<Item>, blobOk: seq<seq<bool>>, deleteOk: seq<bool>, k: nat): seq<Choice>
    requires k <= |items| && k <= |blobOk| && k <= |deleteOk|
    requires forall i :: 0 <= i < k ==> |items[i].files| <= |blobOk[i]|
  {
    if k == 0 then []
    else SweepFates(items, blobOk, deleteOk, k - 1) + ItemFates(items[k - 1].files, blobOk[k - 1], deleteOk[k - 1])
  }

  predicate Fits(items: seq<Item>, blobOk: seq<seq<bool>>, deleteOk: seq<bool>) {
    && |items| <= |blobOk| && |items| <= |deleteOk|
    && forall i :: 0 <= i < |items| ==> items[i].pos == 0 && |items[i].files| <= |blobOk[i]|
  }

  /** The tables after RemoveListed has handled the first k shares. */
  predicate SweptTo(w: World, items: seq<Item>, blobOk: seq<seq<bool>>, deleteOk: seq<bool>, k: nat, w': World)
    requires Fits(items, blobOk, deleteOk) && k <= |items|
  {
    SameTables(w', RowsWithout(w.rows, RefsOf(items)[..k], deleteOk),
               FilesWithout(w.bfiles, RefsOf(items)[..k], deleteOk), w.nextId,
               DropLists(w.blobs, ListsOf(items)[..k], blobOk))
  }

  /** One more share in each of the three batches. */
  lemma SweptOneMore(w: World, items: seq<Item>, blobOk: seq<seq<bool>>, deleteOk: seq<bool>, k: nat, w': World,
                     next: World)
    requires Fits(items, blobOk, deleteOk) && k < |items| && SweptTo(w, items, blobOk, deleteOk, k, w')
    requires var it := items[k];
             SameTables(next, if deleteOk[k] then w'.rows - {it.ref} else w'.rows,
                        if deleteOk[k] && it.ref.kind.BucketShare? then DropBucket(w'.bfiles, it.ref.slug)
                          else w'.bfiles,
                        w'.nextId, DropAll(w'.blobs, FileKeys(it.files), blobOk[k]))
    ensures SweptTo(w, items, blobOk, deleteOk, k + 1, next)
  {
    assert RefsOf(items)[..k + 1][..k] == RefsOf(items)[..k];
    assert ListsOf(items)[..k + 1][..k] == ListsOf(items)[..k];
  }

  lemma SoloItemSwept(w: World, w': World, id: nat, why: Why, items: seq<Item>, blobOk: seq<seq<bool>>,
                      deleteOk: seq<bool>, k: nat)
    requires why.BySweep? && Fits(items, blobOk, deleteOk) && k < |items| && SweptTo(w, items, blobOk, deleteOk, k, w')
    ensures var next := RunOp(w', id, PurgeNext(why, items[k..]), ItemFates(items[k].files, blobOk[k], deleteOk[k]));
            next.1 == PurgeNext(why, items[k + 1..]) && SweptTo(w, items, blobOk, deleteOk, k + 1, next.0)
  {
    var rest := items[k..];
    SoloItem(w', id, why, rest, blobOk[k], deleteOk[k]);
    assert rest[1..] == items[k + 1..];
    SweptOneMore(w, items, blobOk, deleteOk, k, w',
                 RunOp(w', id, PurgeNext(why, rest), ItemFates(items[k].files, blobOk[k], deleteOk[k])).0);
  }

  predicate SweepsTo(w: World, next: (World, Op), why: Why, items: seq<Item>, blobOk: seq<seq<bool>>,
                     deleteOk: seq<bool>, k: nat)
    requires Fits(items, blobOk, deleteOk) && k <= |items|
  {
    next.1 == PurgeNext(why, items[k..]) && SweptTo(w, items, blobOk, deleteOk, k, next.0)
  }

  lemma SoloSweepOn(w: World, id: nat, op: Op, why: Why, items: seq<Item>, blobOk: seq<seq<bool>>, deleteOk: seq<bool>,
                    k: nat)
    requires why.BySweep? && Fits(items, blobOk, deleteOk) && k < |items|
    requires SweepsTo(w, RunOp(w, id, op, SweepFates(items, blobOk, deleteOk, k)), why, items, blobOk, deleteOk, k)
    ensures SweepsTo(w, RunOp(w, id, op, SweepFates(items, blobOk, deleteOk, k + 1)), why, items, blobOk, deleteOk,
                     k + 1)
  {
    var cs := SweepFates(items, blobOk, deleteOk, k);
    RunOpSplits(w, id, op, cs, ItemFates(items[k].files, blobOk[k], deleteOk[k]));
    SoloItemSwept(w, RunOp(w, id, op, cs).0, id, why, items, blobOk, deleteOk, k);
  }

  /** The machine's removal loop of a sweep has the effect of RemoveListed, item by item. */
  lemma {:induction false} SoloSweep(w: World, id: nat, why: Why, items: seq<Item>, blobOk: seq<seq<bool>>,
                                     deleteOk: seq<bool>, k: nat)
    requires why.BySweep? && Fits(items, blobOk, deleteOk) && k <= |items|
    ensures SweepsTo(w, RunOp(w, id, PurgeNext(why, items), SweepFates(items, blobOk, deleteOk, k)), why, items, blobOk,
                     deleteOk, k)
  {
    if k == 0 {
      assert items[0..] == items;
    } else {
      SoloSweep(w, id, why, items, blobOk, deleteOk, k - 1);
      SoloSweepOn(w, id, PurgeNext(why, items), why, items, blobOk, deleteOk, k - 1);
    }
  }

  /* ---------- whole operations ---------- */

  lemma {:induction false} AfterDone(w: World, id: nat, o: Outcome, cs: seq<Choice>)
    ensures RunOp(w, id, Done(o), cs) == (w, Done(o))
  {
    if cs != [] { AfterDone(w, id, o, cs[..|cs| - 1]); }
  }

  lemma FirstStep(w: World, id: nat, op: Op, c: Choice, cs: seq<Choice>)
    ensures RunOp(w, id, op, [c] + cs) == (var next := StepOp(w, id, op, c); RunOp(next.0, id, next.1, cs))
  {
    RunOpSplits(w, id, op, [c], cs);
    assert [c][..0] == [];
  }

  lemma OnlyStep(w: World, id: nat, op: Op, c: Choice)
    ensures RunOp(w, id, op, [c]) == StepOp(w, id, op, c)
  {
    assert [c][..0] == [];
  }

  /** The operation is done with the answer, and tables and store are as the answer says. */
  predicate Agrees(next: (World, Op), answer: (World, Outcome)) {
    next.1 == Done(answer.1) && SameTables(next.0, answer.0.rows, answer.0.bfiles, answer.0.nextId, answer.0.blobs)
  }

  /** The row insert of an upload whose bytes are written, and the rollback. */
  lemma SoloFileInsert(w: World, id: nat, slug: string, meta: Meta, insertOk: bool, undoOk: bool)
    ensures var r := Ref(FileShare, slug); var stored := insertOk && r !in w.rows;
            var next := RunOp(w, id, UpInsert(slug, meta), [Fate(insertOk), Fate(undoOk)]);
            && next.1 == Done(if stored then Stored(r) else Failed)
            && SameTables(next.0, if stored then w.rows[r := Row(meta, None)] else w.rows, w.bfiles, w.nextId,
                          if !stored && undoOk then w.blobs - {slug} else w.blobs)
  {
    var op := UpInsert(slug, meta);
    assert [Fate(insertOk), Fate(undoOk)] == [Fate(insertOk)] + [Fate(undoOk)];
    FirstStep(w, id, op, Fate(insertOk), [Fate(undoOk)]);
    var one := StepOp(w, id, op, Fate(insertOk));
    OnlyStep(one.0, id, one.1, Fate(undoOk));
  }

  lemma WriteMoves(w: World, id: nat, slug: string, meta: Meta, content: Bytes, writeOk: bool)
    ensures StepOp(w, id, UpWrite(slug, meta, content), Fate(writeOk)) ==
              if writeOk then (w.(blobs := w.blobs[slug := content]), UpInsert(slug, meta)) else (w, Done(Failed))
  {
  }

  /** Upload, whatever fails. */
  lemma SoloFileCreate(w: World, id: nat, slug: string, meta: Meta, content: Bytes, writeOk: bool, insertOk: bool,
                       undoOk: bool)
    ensures Agrees(RunOp(w, id, UpWrite(slug, meta, content), [Fate(writeOk)] + [Fate(insertOk), Fate(undoOk)]),
                   FileCreate(w, slug, meta, content, writeOk, insertOk, undoOk))
  {
    FirstStep(w, id, UpWrite(slug, meta, content), Fate(writeOk), [Fate(insertOk), Fate(undoOk)]);
    WriteMoves(w, id, slug, meta, content, writeOk);
    if writeOk {
      SoloFileInsert(w.(blobs := w.blobs[slug := content]), id, slug, meta, insertOk, undoOk);
      assert w.blobs[slug := content] - {slug} == w.blobs - {slug};
    } else {
      AfterDone(w, id, Failed, [Fate(insertOk), Fate(undoOk)]);
    }
  }

  lemma SoloPasteCreate(w: World, id: nat, slug: string, meta: Meta, insertOk: bool)
    ensures Agrees(RunOp(w, id, PasteInsert(slug, meta), [Fate(insertOk)]), PasteCreate(w, slug, meta, insertOk))
  {
    OnlyStep(w, id, PasteInsert(slug, meta), Fate(insertOk));
  }

  /** The choices of one bucket creation: the draws and what follows the first failure. */
  function CreateChoices(n: nat, calls: CreateCalls): seq<Choice>
    requires calls.Cover(n)
  {
    var p := Prefix(calls.draws, n);
    if p < n || !calls.insertOk then Draws(calls.draws, p) + ([Fail] + Fates(calls.undoOk, p))
    else
      var k := OkPrefix(calls.addOk, n);
      Draws(calls.draws, n) + ([Succeed] + (Fates(calls.addOk, k) + [Fate(k == n)]))
  }

  /** The end of a bucket creation whose next draw, write or row insert fails. */
  lemma SoloUndone(w: World, id: nat, slug: string, meta: Meta, inputs: seq<Input>, stored: seq<Member>,
                   undoOk: seq<bool>)
    requires |stored| <= |undoOk|
    ensures var next := RunOp(w, id, CrWrite(slug, meta, inputs, stored), [Fail] + Fates(undoOk, |stored|));
            && next.1 == Done(Failed)
            && SameTables(next.0, w.rows, w.bfiles, w.nextId, DropAll(w.blobs, KeysOf(stored), undoOk))
  {
    var op := CrWrite(slug, meta, inputs, stored);
    FirstStep(w, id, op, Fail, Fates(undoOk, |stored|));
    assert StepOp(w, id, op, Fail) == (w, UndoNext(KeysOf(stored)));
    SoloRollback(w, id, KeysOf(stored), undoOk, |stored|);
    assert KeysOf(stored)[..|stored|] == KeysOf(stored);
  }

  /** A bucket creation whose draws, writes or row insert fail. */
  lemma SoloCreateUndone(w: World, id: nat, slug: string, meta: Meta, inputs: seq<Input>, calls: CreateCalls)
    requires calls.Cover(|inputs|) && FreshDraws(w, calls.draws, 0)
    requires Prefix(calls.draws, |inputs|) < |inputs| || !calls.insertOk
    ensures Agrees(RunOp(w, id, CrWrite(slug, meta, inputs, []), CreateChoices(|inputs|, calls)),
                   BucketCreate(w, slug, meta, inputs, calls))
  {
    var p := Prefix(calls.draws, |inputs|);
    var stored := MembersOf(inputs, calls.draws, p);
    var written := RunOp(w, id, CrWrite(slug, meta, inputs, []), Draws(calls.draws, p));
    SoloWrites(w, id, slug, meta, inputs, calls.draws, p);
    SoloUndone(written.0, id, slug, meta, inputs, stored, calls.undoOk);
    RunOpSplits(w, id, CrWrite(slug, meta, inputs, []), Draws(calls.draws, p), [Fail] + Fates(calls.undoOk, p));
    CreateUndone(w, slug, meta, inputs, calls);
  }

  /** The rows of a bucket creation, from its first AddFile to its return. */
  lemma SoloAddAll(w: World, id: nat, slug: string, stored: seq<Member>, ok: seq<bool>)
    requires |stored| <= |ok| && Ref(BucketShare, slug) in w.rows
    ensures var k := OkPrefix(ok, |stored|);
            var next := RunOp(w, id, CrAdd(slug, stored, 0), Fates(ok, k) + [Fate(k == |stored|)]);
            && next.1 == Done(if k == |stored| then Stored(Ref(BucketShare, slug)) else Failed)
            && SameTables(next.0, w.rows, AddAll(w.bfiles, w.nextId, slug, stored[..k]), w.nextId + k, w.blobs)
  {
    var k := OkPrefix(ok, |stored|);
    SoloAdds(w, id, slug, stored, ok, k);
    RunOpSplits(w, id, CrAdd(slug, stored, 0), Fates(ok, k), [Fate(k == |stored|)]);
    var mid := RunOp(w, id, CrAdd(slug, stored, 0), Fates(ok, k));
    OnlyStep(mid.0, id, mid.1, Fate(k == |stored|));
  }

  lemma InsertMoves(w: World, id: nat, slug: string, meta: Meta, inputs: seq<Input>, stored: seq<Member>)
    requires |stored| == |inputs| && Ref(BucketShare, slug) !in w.rows
    ensures var next := StepOp(w, id, CrWrite(slug, meta, inputs, stored), Succeed);
            && next.1 == CrAdd(slug, stored, 0)
            && SameTables(next.0, w.rows[Ref(BucketShare, slug) := Row(meta, None)], w.bfiles, w.nextId, w.blobs)
  {
  }

  /** The end of a bucket creation whose blobs are all written and whose row insert succeeds. */
  lemma SoloInserted(w: World, id: nat, slug: string, meta: Meta, inputs: seq<Input>, stored: seq<Member>,
                     ok: seq<bool>)
    requires |stored| == |inputs| <= |ok| && Ref(BucketShare, slug) !in w.rows
    ensures var k := OkPrefix(ok, |stored|);
            var next := RunOp(w, id, CrWrite(slug, meta, inputs, stored),
                              [Succeed] + (Fates(ok, k) + [Fate(k == |stored|)]));
            && next.1 == Done(if k == |stored| then Stored(Ref(BucketShare, slug)) else Failed)
            && SameTables(next.0, w.rows[Ref(BucketShare, slug) := Row(meta, None)],
                          AddAll(w.bfiles, w.nextId, slug, stored[..k]), w.nextId + k, w.blobs)
  {
    var k := OkPrefix(ok, |stored|);
    var op := CrWrite(slug, meta, inputs, stored);
    FirstStep(w, id, op, Succeed, Fates(ok, k) + [Fate(k == |stored|)]);
    InsertMoves(w, id, slug, meta, inputs, stored);
    SoloAddAll(StepOp(w, id, op, Succeed).0, id, slug, stored, ok);
  }

  lemma SoloCreateAdds(w: World, id: nat, slug: string, meta: Meta, inputs: seq<Input>, calls: CreateCalls)
    requires calls.Cover(|inputs|) && FreshDraws(w, calls.draws, 0) && Ref(BucketShare, slug) !in w.rows
    requires Prefix(calls.draws, |inputs|) == |inputs| && calls.insertOk
    ensures Agrees(RunOp(w, id, CrWrite(slug, meta, inputs, []), CreateChoices(|inputs|, calls)),
                   BucketCreate(w, slug, meta, inputs, calls))
  {
    var n := |inputs|;
    var k := OkPrefix(calls.addOk, n);
    var stored := MembersOf(inputs, calls.draws, n);
    var written := RunOp(w, id, CrWrite(slug, meta, inputs, []), Draws(calls.draws, n));
    SoloWrites(w, id, slug, meta, inputs, calls.draws, n);
    SoloInserted(written.0, id, slug, meta, inputs, stored, calls.addOk);
    RunOpSplits(w, id, CrWrite(slug, meta, inputs, []), Draws(calls.draws, n),
                [Succeed] + (Fates(calls.addOk, k) + [Fate(k == n)]));
    CreateAdds(w, slug, meta, inputs, calls);
  }

  /** Alone, the machine's bucket creation does what CreateBucket does, wherever it fails. */
  lemma SoloCreate(w: World, id: nat, slug: string, meta: Meta, inputs: seq<Input>, calls: CreateCalls)
    requires calls.Cover(|inputs|) && FreshDraws(w, calls.draws, 0) && Ref(BucketShare, slug) !in w.rows
    ensures Agrees(RunOp(w, id, CrWrite(slug, meta, inputs, []), CreateChoices(|inputs|, calls)),
                   BucketCreate(w, slug, meta, inputs, calls))
  {
    if Prefix(calls.draws, |inputs|) < |inputs| || !calls.insertOk {
      SoloCreateUndone(w, id, slug, meta, inputs, calls);
    } else {
      SoloCreateAdds(w, id, slug, meta, inputs, calls);
    }
  }

  /** The row query of a Delete, and its check where no second query is needed. */
  lemma DeleteLookup(w: World, id: nat, r: Ref, secret: string, rowOk: bool)
    ensures StepOp(w, id, DlRow(r, secret), Fate(rowOk)) ==
              (w, if !rowOk then Done(Failed)
                  else if r !in w.rows then Done(NotFound)
                  else if r.kind.BucketShare? then DlFiles(r, secret, w.rows[r].meta)
                  else if secret != w.rows[r].meta.secret then Done(BadSecret)
                  else Purge(BySecret(secret), [Item(r, w.rows[r].meta, SingleFile(r, w.rows[r].meta), 0)]))
  {
  }

  lemma FilePurge(w: World, id: nat, secret: string, r: Ref, meta: Meta, blobOk: bool, deleteOk: bool)
    requires r.kind.FileShare?
    ensures var next := RunOp(w, id, Purge(BySecret(secret), [Item(r, meta, [OwnFile(r.slug, meta)], 0)]),
                              [Fate(blobOk), Fate(deleteOk)]);
            && next.1 == Done(if blobOk && deleteOk then Removed(r) else Failed)
            && SameTables(next.0, if blobOk && deleteOk then w.rows - {r} else w.rows, w.bfiles, w.nextId,
                          if blobOk then w.blobs - {r.slug} else w.blobs)
  {
    var op := Purge(BySecret(secret), [Item(r, meta, [OwnFile(r.slug, meta)], 0)]);
    assert [Fate(blobOk), Fate(deleteOk)] == [Fate(blobOk)] + [Fate(deleteOk)];
    FirstStep(w, id, op, Fate(blobOk), [Fate(deleteOk)]);
    var one := StepOp(w, id, op, Fate(blobOk));
    OnlyStep(one.0, id, one.1, Fate(deleteOk));
  }

  /** Alone, the machine's Delete of a file does what DeleteFile does, whatever fails. */
  lemma SoloFileDelete(w: World, id: nat, slug: string, secret: string, rowOk: bool, blobOk: bool, deleteOk: bool)
    ensures Agrees(RunOp(w, id, DlRow(Ref(FileShare, slug), secret), [Fate(rowOk)] + [Fate(blobOk), Fate(deleteOk)]),
                   FileDelete(w, slug, secret, rowOk, blobOk, deleteOk))
  {
    var r := Ref(FileShare, slug);
    var rest := [Fate(blobOk), Fate(deleteOk)];
    FirstStep(w, id, DlRow(r, secret), Fate(rowOk), rest);
    DeleteLookup(w, id, r, secret, rowOk);
    if rowOk && r in w.rows && secret == w.rows[r].meta.secret {
      FilePurge(w, id, secret, r, w.rows[r].meta, blobOk, deleteOk);
    } else {
      AfterDone(w, id, FileDelete(w, slug, secret, rowOk, blobOk, deleteOk).1, rest);
    }
  }

  lemma PastePurge(w: World, id: nat, secret: string, r: Ref, meta: Meta, deleteOk: bool)
    requires r.kind.PasteShare?
    ensures var next := RunOp(w, id, Purge(BySecret(secret), [Item(r, meta, [], 0)]), [Fate(deleteOk)]);
            && next.1 == Done(if deleteOk then Removed(r) else Failed)
            && SameTables(next.0, if deleteOk then w.rows - {r} else w.rows, w.bfiles, w.nextId, w.blobs)
  {
    OnlyStep(w, id, Purge(BySecret(secret), [Item(r, meta, [], 0)]), Fate(deleteOk));
  }

  lemma SoloPasteDelete(w: World, id: nat, slug: string, secret: string, rowOk: bool, deleteOk: bool)
    ensures Agrees(RunOp(w, id, DlRow(Ref(PasteShare, slug), secret), [Fate(rowOk)] + [Fate(deleteOk)]),
                   PasteDelete(w, slug, secret, rowOk, deleteOk))
  {
    var r := Ref(PasteShare, slug);
    FirstStep(w, id, DlRow(r, secret), Fate(rowOk), [Fate(deleteOk)]);
    DeleteLookup(w, id, r, secret, rowOk);
    if rowOk && r in w.rows && secret == w.rows[r].meta.secret {
      PastePurge(w, id, secret, r, w.rows[r].meta, deleteOk);
    } else {
      AfterDone(w, id, PasteDelete(w, slug, secret, rowOk, deleteOk).1, [Fate(deleteOk)]);
    }
  }

  /** An authorised removal of a bucket: its listed blobs, then its row. */
  lemma SoloBucketPurge(w: World, id: nat, secret: string, it: Item, blobOk: seq<bool>, deleteOk: bool)
    requires it.pos == 0 && it.ref.kind.BucketShare? && |it.files| <= |blobOk|
    ensures var next := RunOp(w, id, Purge(BySecret(secret), [it]), Fates(blobOk, |it.files|) + [Fate(deleteOk)]);
            && next.1 == Done(if deleteOk then Removed(it.ref) else Failed)
            && SameTables(next.0, if deleteOk then w.rows - {it.ref} else w.rows,
                          if deleteOk then DropBucket(w.bfiles, it.ref.slug) else w.bfiles, w.nextId,
                          DropAll(w.blobs, FileKeys(it.files), blobOk))
  {
    var k := |it.files|;
    var op := Purge(BySecret(secret), [it]);
    SoloItemBlobs(w, id, BySecret(secret), [it], blobOk, k);
    assert FileKeys(it.files)[..k] == FileKeys(it.files);
    RunOpSplits(w, id, op, Fates(blobOk, k), [Fate(deleteOk)]);
    var mid := RunOp(w, id, op, Fates(blobOk, k));
    OnlyStep(mid.0, id, mid.1, Fate(deleteOk));
  }

  lemma DeleteQuery(w: World, id: nat, r: Ref, secret: string, meta: Meta, filesOk: bool)
    ensures var next := StepOp(w, id, DlFiles(r, secret, meta), Fate(filesOk));
            && next.1 == (if !filesOk then Done(Failed)
                          else if secret != meta.secret then Done(BadSecret)
                          else Purge(BySecret(secret), [Item(r, meta, FilesOf(w.bfiles, r.slug), 0)]))
            && SameTables(next.0, w.rows, w.bfiles, w.nextId, w.blobs)
  {
  }

  /** A Delete of a bucket from its second query on. */
  lemma SoloBucketListed(w: World, id: nat, r: Ref, secret: string, meta: Meta, filesOk: bool, blobOk: seq<bool>,
                         deleteOk: bool)
    requires r.kind.BucketShare? && r in w.rows && meta == w.rows[r].meta && |blobOk| >= |FilesOf(w.bfiles, r.slug)|
    ensures var n := |FilesOf(w.bfiles, r.slug)|;
            Agrees(RunOp(w, id, DlFiles(r, secret, meta), [Fate(filesOk)] + (Fates(blobOk, n) + [Fate(deleteOk)])),
                   BucketDelete(w, r.slug, secret, true, filesOk, blobOk, deleteOk))
  {
    var rest := Fates(blobOk, |FilesOf(w.bfiles, r.slug)|) + [Fate(deleteOk)];
    FirstStep(w, id, DlFiles(r, secret, meta), Fate(filesOk), rest);
    DeleteQuery(w, id, r, secret, meta, filesOk);
    var one := StepOp(w, id, DlFiles(r, secret, meta), Fate(filesOk));
    if filesOk && secret == meta.secret {
      SoloBucketPurge(one.0, id, secret, Item(r, meta, FilesOf(w.bfiles, r.slug), 0), blobOk, deleteOk);
    } else {
      AfterDone(one.0, id, one.1.outcome, rest);
    }
  }

  /** Alone, the machine's Delete of a bucket does what DeleteBucket does, whatever fails. */
  lemma SoloBucketDelete(w: World, id: nat, slug: string, secret: string, rowOk: bool, filesOk: bool, blobOk: seq<bool>,
                         deleteOk: bool)
    requires |blobOk| >= |FilesOf(w.bfiles, slug)|
    ensures var n := |FilesOf(w.bfiles, slug)|;
            Agrees(RunOp(w, id, DlRow(Ref(BucketShare, slug), secret),
                         [Fate(rowOk)] + ([Fate(filesOk)] + (Fates(blobOk, n) + [Fate(deleteOk)]))),
                   BucketDelete(w, slug, secret, rowOk, filesOk, blobOk, deleteOk))
  {
    var r := Ref(BucketShare, slug);
    var rest := [Fate(filesOk)] + (Fates(blobOk, |FilesOf(w.bfiles, slug)|) + [Fate(deleteOk)]);
    FirstStep(w, id, DlRow(r, secret), Fate(rowOk), rest);
    DeleteLookup(w, id, r, secret, rowOk);
    if rowOk && r in w.rows {
      SoloBucketListed(w, id, r, secret, w.rows[r].meta, filesOk, blobOk, deleteOk);
    } else {
      AfterDone(w, id, BucketDelete(w, slug, secret, rowOk, filesOk, blobOk, deleteOk).1, rest);
    }
  }

  /* ---------- reading ---------- */

  lemma SendMoves(w: World, id: nat, r: Ref, goal: Goal, meta: Meta, files: seq<BFile>, entries: seq<Entry>, ok: bool)
    requires |entries| < |files|
    ensures var f := files[|entries|];
            StepOp(w, id, RdSend(r, goal, meta, files, entries), Fate(ok)) ==
              (w, if ok && f.key in w.blobs
                  then RdSend(r, goal, meta, files, entries + [Entry(f.filename, w.blobs[f.key])])
                  else Done(Broken(r, goal, meta, files, entries)))
  {
  }

  /** The send loop of the machine writes the entries of WriteEntries and breaks off where it does. */
  lemma {:induction false} SoloSends(w: World, id: nat, r: Ref, goal: Goal, meta: Meta, files: seq<BFile>,
                                     ok: seq<bool>, k: nat)
    requires k <= |files| <= |ok|
    ensures var entries := SentEntries(w.blobs, files, ok, k);
            RunOp(w, id, RdSend(r, goal, meta, files, []), Fates(ok, k)) ==
              (w, if |entries| == k then RdSend(r, goal, meta, files, entries)
                  else Done(Broken(r, goal, meta, files, entries)))
  {
    if k > 0 {
      SoloSends(w, id, r, goal, meta, files, ok, k - 1);
      assert Fates(ok, k)[..k - 1] == Fates(ok, k - 1);
      var before := SentEntries(w.blobs, files, ok, k - 1);
      if |before| == k - 1 { SendMoves(w, id, r, goal, meta, files, before, ok[k - 1]); }
    }
  }

  /** From its first blob read to its end. */
  lemma SoloSending(w: World, id: nat, r: Ref, goal: Goal, meta: Meta, files: seq<BFile>, ok: seq<bool>)
    requires |files| <= |ok|
    ensures RunOp(w, id, RdSend(r, goal, meta, files, []), Fates(ok, |files|) + [Succeed]) ==
              (w, Done(Sending(w, r, goal, meta, files, ok)))
  {
    var op := RdSend(r, goal, meta, files, []);
    SoloSends(w, id, r, goal, meta, files, ok, |files|);
    RunOpSplits(w, id, op, Fates(ok, |files|), [Succeed]);
    OnlyStep(w, id, RunOp(w, id, op, Fates(ok, |files|)).1, Succeed);
  }

  /** Where a read stands once it is admitted or refused. */
  function AdmittedTo(w: World, r: Ref, admitted: Result<Meta, Outcome>): Op {
    match admitted
    case Err(o) => Done(o)
    case Ok(meta) => RdSend(r, Fetch, meta, FilesFor(w, r, meta), [])
  }

  /** The choices from the check on: the check itself and, for a one-use share, the mark. */
  function CheckChoices(meta: Meta, mark: Choice): seq<Choice> {
    [Succeed] + if meta.oneUse then [mark] else []
  }

  /** A check or mark that leaves the rows as the admission says and stands where it says. */
  predicate Admits(w: World, r: Ref, next: (World, Op), answer: (World, Result<Meta, Outcome>)) {
    && next.1 == AdmittedTo(w, r, answer.1)
    && SameTables(next.0, answer.0.rows, w.bfiles, w.nextId, w.blobs)
  }

  lemma MarkIsStep(w: World, id: nat, r: Ref, pw: string, meta: Meta, files: seq<BFile>, at: int, mark: Choice)
    ensures StepOp(w, id, RdMark(r, pw, meta, files, at), mark) == MarkStep(w, id, r, pw, meta, files, at, mark)
  {
  }

  lemma MarkAdmission(w: World, r: Ref, pw: string, mark: Choice)
    requires r in w.rows && w.rows[r].meta.oneUse && !Expiry.Lapsed(w.rows[r].meta.expires, w.now)
    requires PasswordOk(w, w.rows[r].meta, pw)
    ensures var row := w.rows[r]; var marks := !mark.Fail? && row.mark.None?;
            Admission(w, r, pw, true, true, mark) ==
              (w.(rows := if marks then w.rows[r := Row(row.meta, Some(Expiry.Unix(w.now)))] else w.rows),
               if mark.Fail? || mark.FailLate? then Err(Failed)
               else if marks then Ok(row.meta) else Err(AlreadyConsumed))
  {
  }

  lemma MarkMoves(w: World, id: nat, r: Ref, pw: string, mark: Choice, files: seq<BFile>)
    requires r in w.rows && w.rows[r].meta.oneUse && !Expiry.Lapsed(w.rows[r].meta.expires, w.now)
    requires PasswordOk(w, w.rows[r].meta, pw) && files == FilesFor(w, r, w.rows[r].meta)
    ensures Admits(w, r, MarkStep(w, id, r, pw, w.rows[r].meta, files, w.now, mark),
                   Admission(w, r, pw, true, true, mark))
  {
    MarkAdmission(w, r, pw, mark);
  }

  lemma SoloChecked(w: World, id: nat, r: Ref, pw: string, mark: Choice)
    requires r in w.rows
    ensures var meta := w.rows[r].meta; var files := FilesFor(w, r, meta);
            var next := RunOp(w, id, RdCheck(r, pw, Fetch, meta, files), CheckChoices(meta, mark));
            var answer := Admission(w, r, pw, true, true, mark);
            Admits(w, r, next, answer)
  {
    var meta := w.rows[r].meta;
    var files := FilesFor(w, r, meta);
    var op := RdCheck(r, pw, Fetch, meta, files);
    var rest := if meta.oneUse then [mark] else [];
    FirstStep(w, id, op, Succeed, rest);
    var one := Check(w, r, pw, Fetch, meta, files);
    assert StepOp(w, id, op, Succeed) == (w, one);
    if one.Done? {
      AfterDone(w, id, one.outcome, rest);
    } else if meta.oneUse {
      OnlyStep(w, id, one, mark);
      MarkIsStep(w, id, r, pw, meta, files, w.now, mark);
      MarkMoves(w, id, r, pw, mark, files);
    }
  }

  /** The queries a content read makes before its check. */
  function LookupChoices(r: Ref, rowOk: bool, filesOk: bool): seq<Choice> {
    [Fate(rowOk)] + if r.kind.BucketShare? then [Fate(filesOk)] else []
  }

  lemma SoloLookup(w: World, id: nat, r: Ref, pw: string, goal: Goal, rowOk: bool, filesOk: bool)
    requires r.kind.BucketShare? || filesOk
    ensures RunOp(w, id, RdRow(r, pw, goal), LookupChoices(r, rowOk, filesOk)) ==
              (w, if !rowOk then Done(Failed)
                  else if r !in w.rows then Done(NotFound)
                  else if !filesOk then Done(Failed)
                  else RdCheck(r, pw, goal, w.rows[r].meta, FilesFor(w, r, w.rows[r].meta)))
  {
    var rest := if r.kind.BucketShare? then [Fate(filesOk)] else [];
    FirstStep(w, id, RdRow(r, pw, goal), Fate(rowOk), rest);
    var one := StepOp(w, id, RdRow(r, pw, goal), Fate(rowOk)).1;
    if one.Done? {
      AfterDone(w, id, one.outcome, rest);
    } else if r.kind.BucketShare? {
      OnlyStep(w, id, one, Fate(filesOk));
    }
  }

  /** All the choices of one content read of a share with the given row. */
  function ContentChoices(w: World, r: Ref, rowOk: bool, filesOk: bool, mark: Choice, readOk: seq<bool>): seq<Choice>
    requires CoversFiles(w, r, readOk)
  {
    LookupChoices(r, rowOk, filesOk) +
    if r !in w.rows then []
    else CheckChoices(w.rows[r].meta, mark) + (Fates(readOk, |FilesFor(w, r, w.rows[r].meta)|) + [Succeed])
  }

  lemma AdmissionKeeps(w: World, r: Ref, pw: string, rowOk: bool, filesOk: bool, mark: Choice)
    ensures var answer := Admission(w, r, pw, rowOk, filesOk, mark);
            && answer.0 == w.(rows := answer.0.rows)
            && (answer.1.Ok? ==> r in w.rows && answer.1.value == w.rows[r].meta)
  {
  }

  function Finished(w: World, r: Ref, answer: (World, Result<Meta, Outcome>), readOk: seq<bool>): (World, Outcome)
    requires CoversFiles(w, r, readOk)
  {
    match answer.1
    case Err(o) => (answer.0, o)
    case Ok(meta) => (answer.0, Sending(answer.0, r, Fetch, meta, FilesFor(w, r, meta), readOk))
  }

  /** What is left of a read once it is admitted or refused. */
  lemma SoloAdmitted(w: World, mid: (World, Op), id: nat, r: Ref, answer: (World, Result<Meta, Outcome>),
                     readOk: seq<bool>, meta: Meta)
    requires CoversFiles(w, r, readOk) && Admits(w, r, mid, answer) && answer.0 == w.(rows := answer.0.rows)
    requires answer.1.Ok? ==> answer.1.value == meta
    ensures Agrees(RunOp(mid.0, id, mid.1, Fates(readOk, |FilesFor(w, r, meta)|) + [Succeed]),
                   Finished(w, r, answer, readOk))
  {
    var sends := Fates(readOk, |FilesFor(w, r, meta)|) + [Succeed];
    match answer.1
    case Err(o) => AfterDone(mid.0, id, o, sends);
    case Ok(m) => SoloSending(mid.0, id, r, Fetch, m, FilesFor(w, r, m), readOk);
  }

  lemma SoloFromCheck(w: World, id: nat, r: Ref, pw: string, mark: Choice, readOk: seq<bool>)
    requires CoversFiles(w, r, readOk) && r in w.rows
    ensures var meta := w.rows[r].meta; var files := FilesFor(w, r, meta);
            Agrees(RunOp(w, id, RdCheck(r, pw, Fetch, meta, files),
                         CheckChoices(meta, mark) + (Fates(readOk, |files|) + [Succeed])),
                   ContentGet(w, r, pw, true, true, mark, readOk))
  {
    var meta := w.rows[r].meta;
    var files := FilesFor(w, r, meta);
    var op := RdCheck(r, pw, Fetch, meta, files);
    SoloChecked(w, id, r, pw, mark);
    RunOpSplits(w, id, op, CheckChoices(meta, mark), Fates(readOk, |files|) + [Succeed]);
    AdmissionKeeps(w, r, pw, true, true, mark);
    var mid := RunOp(w, id, op, CheckChoices(meta, mark));
    SoloAdmitted(w, mid, id, r, Admission(w, r, pw, true, true, mark), readOk, meta);
  }

  lemma RefusedAnswers(w: World, r: Ref, pw: string, rowOk: bool, filesOk: bool, mark: Choice, readOk: seq<bool>)
    requires CoversFiles(w, r, readOk) && !(rowOk && filesOk && r in w.rows)
    ensures ContentGet(w, r, pw, rowOk, filesOk, mark, readOk) ==
              (w, if rowOk && r !in w.rows then NotFound else Failed)
  {
  }

  /**
   Alone, the machine's Get of a file or paste and its StreamZIP do what Get, GetPaste and StreamZip do,
   whatever fails: the checks in their order, the mark, the entries and where they break off.
   */
  lemma SoloContent(w: World, id: nat, r: Ref, pw: string, rowOk: bool, filesOk: bool, mark: Choice, readOk: seq<bool>)
    requires CoversFiles(w, r, readOk) && (r.kind.BucketShare? || filesOk)
    ensures Agrees(RunOp(w, id, RdRow(r, pw, Fetch), ContentChoices(w, r, rowOk, filesOk, mark, readOk)),
                   ContentGet(w, r, pw, rowOk, filesOk, mark, readOk))
  {
    var op := RdRow(r, pw, Fetch);
    var early := LookupChoices(r, rowOk, filesOk);
    var rest := if r !in w.rows then []
                else CheckChoices(w.rows[r].meta, mark) + (Fates(readOk, |FilesFor(w, r, w.rows[r].meta)|) + [Succeed]);
    SoloLookup(w, id, r, pw, Fetch, rowOk, filesOk);
    RunOpSplits(w, id, op, early, rest);
    if rowOk && filesOk && r in w.rows {
      SoloFromCheck(w, id, r, pw, mark, readOk);
    } else {
      RefusedAnswers(w, r, pw, rowOk, filesOk, mark, readOk);
      AfterDone(w, id, if rowOk && r !in w.rows then NotFound else Failed, rest);
    }
  }

  /** Alone, the machine's read of a single bucket file does what GetFile does, and changes nothing. */
  lemma SoloOneFile(w: World, id: nat, slug: string, pw: string, key: string, rowOk: bool, filesOk: bool, readOk: bool)
    ensures RunOp(w, id, RdRow(Ref(BucketShare, slug), pw, OneFile(key)),
                  LookupChoices(Ref(BucketShare, slug), rowOk, filesOk) +
                  ([Succeed] + (Fates([readOk], 1) + [Succeed]))) ==
              (w, Done(OneFileGet(w, slug, pw, key, rowOk, filesOk, readOk)))
  {
    var r := Ref(BucketShare, slug);
    var op := RdRow(r, pw, OneFile(key));
    var sends := Fates([readOk], 1) + [Succeed];
    SoloLookup(w, id, r, pw, OneFile(key), rowOk, filesOk);
    RunOpSplits(w, id, op, LookupChoices(r, rowOk, filesOk), [Succeed] + sends);
    var one := RunOp(w, id, op, LookupChoices(r, rowOk, filesOk)).1;
    if one.Done? {
      AfterDone(w, id, one.outcome, [Succeed] + sends);
    } else {
      FirstStep(w, id, one, Succeed, sends);
      var two := Check(w, r, pw, OneFile(key), one.meta, one.files);
      assert StepOp(w, id, one, Succeed) == (w, two);
      if two.Done? {
        AfterDone(w, id, two.outcome, sends);
      } else {
        SoloSending(w, id, r, OneFile(key), one.meta, two.files, [readOk]);
      }
    }
  }

  /** Alone, the machine's metadata reads answer as the two GetMetas do, and change nothing. */
  lemma SoloMeta(w: World, id: nat, r: Ref, pw: string, rowOk: bool, filesOk: bool)
    requires r.kind.BucketShare? || filesOk
    ensures RunOp(w, id, RdRow(r, pw, MetaOnly), LookupChoices(r, rowOk, filesOk) + [Succeed]) ==
              (w, Done(MetaGet(w, r, pw, rowOk, filesOk)))
  {
    var op := RdRow(r, pw, MetaOnly);
    SoloLookup(w, id, r, pw, MetaOnly, rowOk, filesOk);
    RunOpSplits(w, id, op, LookupChoices(r, rowOk, filesOk), [Succeed]);
    var one := RunOp(w, id, op, LookupChoices(r, rowOk, filesOk)).1;
    if one.Done? {
      AfterDone(w, id, one.outcome, [Succeed]);
    } else {
      OnlyStep(w, id, one, Succeed);
      MetaMoves(w, id, r, pw, one.meta, one.files);
    }
  }

  lemma MetaMoves(w: World, id: nat, r: Ref, pw: string, meta: Meta, files: seq<BFile>)
    ensures StepOp(w, id, RdCheck(r, pw, MetaOnly, meta, files), Succeed) ==
              (w, if Expiry.Lapsed(meta.expires, w.now) then Done(LapsedShare)
                  else if !r.kind.FileShare? && meta.pwHash != "" && (pw == "" || !w.bcrypt(meta.pwHash, pw))
                  then Done(WrongPassword)
                  else Done(Accepted(r, meta, files)))
  {
  }

  /* ---------- one pass of the sweep ---------- */

  /** The items with the files that their queries find. */
  function WithFiles(w: World, items: seq<Item>): (found: seq<Item>)
    ensures |found| == |items|
    ensures forall i :: 0 <= i < |items| ==> found[i] == items[i].(files := FilesOf(w.bfiles, items[i].ref.slug))
  {
    seq(|items|, i requires 0 <= i < |items| => items[i].(files := FilesOf(w.bfiles, items[i].ref.slug)))
  }

  function Successes(n: nat): (cs: seq<Choice>)
    ensures |cs| == n && forall i :: 0 <= i < n ==> cs[i] == Succeed
  {
    seq(n, i requires 0 <= i < n => Succeed)
  }

  lemma QueryMoves(w: World, id: nat, why: Why, todo: seq<Item>, items: seq<Item>)
    requires why.BySweep? && todo != []
    ensures var next := StepOp(w, id, SwFiles(why, todo, items), Succeed);
            && next.1 == SwFiles(why, todo[1..], items + [todo[0].(files := FilesOf(w.bfiles, todo[0].ref.slug))])
            && SameTables(next.0, w.rows, w.bfiles, w.nextId, w.blobs) && next.0.now == w.now
  {
  }

  lemma {:induction false} SoloQueries(w: World, id: nat, why: Why, todo: seq<Item>, k: nat)
    requires why.BySweep? && k <= |todo|
    ensures var next := RunOp(w, id, SwFiles(why, todo, []), Successes(k));
            && next.1 == SwFiles(why, todo[k..], WithFiles(w, todo[..k]))
            && SameTables(next.0, w.rows, w.bfiles, w.nextId, w.blobs) && next.0.now == w.now
  {
    if k == 0 {
      assert todo[0..] == todo && WithFiles(w, todo[..0]) == [];
    } else {
      SoloQueries(w, id, why, todo, k - 1);
      assert Successes(k)[..k - 1] == Successes(k - 1);
      var before := RunOp(w, id, SwFiles(why, todo, []), Successes(k - 1));
      QueryAfter(w, before.0, id, why, todo, k - 1);
    }
  }

  /** One more file query, in a world whose tables are still those of w. */
  lemma QueryAfter(w: World, before: World, id: nat, why: Why, todo: seq<Item>, k: nat)
    requires why.BySweep? && k < |todo|
    requires SameTables(before, w.rows, w.bfiles, w.nextId, w.blobs) && before.now == w.now
    ensures var next := StepOp(before, id, SwFiles(why, todo[k..], WithFiles(w, todo[..k])), Succeed);
            && next.1 == SwFiles(why, todo[k + 1..], WithFiles(w, todo[..k + 1]))
            && SameTables(next.0, w.rows, w.bfiles, w.nextId, w.blobs) && next.0.now == w.now
  {
    QueryMoves(before, id, why, todo[k..], WithFiles(w, todo[..k]));
    assert todo[k..][1..] == todo[k + 1..];
    assert WithFiles(w, todo[..k + 1]) ==
           WithFiles(w, todo[..k]) + [todo[k].(files := FilesOf(w.bfiles, todo[k].ref.slug))];
  }

  /** What a sweep remembers once it has listed these items. */
  function Noted(why: Why, items: seq<Item>): Why
    requires why.BySweep?
  {
    var refs := set i | 0 <= i < |items| :: items[i].ref;
    var keys := set i, j | 0 <= i < |items| && 0 <= j < |items[i].files| :: items[i].files[j].key;
    why.(listed := why.listed + refs, keys := why.keys + keys)
  }

  /** The items of a pass: what its listing and, for buckets, its file queries find. */
  function ItemsOf(w: World, kind: Kind, refs: seq<Ref>): (items: seq<Item>)
    requires forall i :: 0 <= i < |refs| ==> refs[i] in w.rows
    ensures |items| == |refs|
  {
    if kind.BucketShare? then WithFiles(w, ItemsFor(w, refs)) else ItemsFor(w, refs)
  }

  lemma ItemsAreListed(w: World, kind: Kind, calls: PassCalls, l: Listing)
    requires Listed(w, kind, true, l) && calls.Fit(l)
    ensures var items := ItemsOf(w, kind, l.refs);
            RefsOf(items) == l.refs && ListsOf(items) == l.lists && Fits(items, calls.blobOk, calls.deleteOk)
  {
    var items := ItemsOf(w, kind, l.refs);
    forall i | 0 <= i < |l.refs|
      ensures items[i].ref == l.refs[i] && items[i].files == l.lists[i] && items[i].pos == 0
    {
      assert l.refs[i] in l.refs;
    }
  }

  /** The choices of the listing of a pass: the rows' query and, for buckets, one query per bucket. */
  function ListChoices(kind: Kind, refs: seq<Ref>): seq<Choice> {
    [Order(refs)] + if kind.BucketShare? then Successes(|refs|) + [Succeed] else []
  }

  lemma OrderMoves(w: World, id: nat, why: Why, refs: seq<Ref>)
    requires why.BySweep? && ListsExpired(w, why.kind, refs)
    ensures StepOp(w, id, SwList(why), Order(refs)) ==
              (w, if why.kind.BucketShare? then SwFiles(why.(at := w.now), ItemsFor(w, refs), [])
                  else PurgeNext(Noted(why.(at := w.now), ItemsFor(w, refs)), ItemsFor(w, refs)))
  {
  }

  lemma LastQueryMoves(w: World, id: nat, why: Why, items: seq<Item>)
    requires why.BySweep?
    ensures StepOp(w, id, SwFiles(why, [], items), Succeed) == (w, PurgeNext(Noted(why, items), items))
  {
  }

  lemma SoloListing(w: World, id: nat, why: Why, l: Listing)
    requires why.BySweep? && Listed(w, why.kind, true, l)
    ensures var items := ItemsOf(w, why.kind, l.refs);
            var next := RunOp(w, id, SwList(why), ListChoices(why.kind, l.refs));
            && next.1 == PurgeNext(Noted(why.(at := w.now), items), items)
            && SameTables(next.0, w.rows, w.bfiles, w.nextId, w.blobs)
  {
    var why' := why.(at := w.now);
    var todo := ItemsFor(w, l.refs);
    forall i, j | 0 <= i < j < |l.refs| ensures l.refs[i] != l.refs[j] { }
    OrderMoves(w, id, why, l.refs);
    var n := |l.refs|;
    if why.kind.BucketShare? {
      FirstStep(w, id, SwList(why), Order(l.refs), Successes(n) + [Succeed]);
      SoloQueries(w, id, why', todo, n);
      assert todo[n..] == [] && todo[..n] == todo;
      RunOpSplits(w, id, SwFiles(why', todo, []), Successes(n), [Succeed]);
      var mid := RunOp(w, id, SwFiles(why', todo, []), Successes(n));
      OnlyStep(mid.0, id, mid.1, Succeed);
      LastQueryMoves(mid.0, id, why', WithFiles(w, todo));
    } else {
      assert [Order(l.refs)] + [] == [Order(l.refs)];
      OnlyStep(w, id, SwList(why), Order(l.refs));
    }
  }

  /** After the files come the buckets, after the buckets the pastes, and after the pastes the sweep is done. */
  predicate GoesOn(op: Op, why: Why)
    requires why.BySweep?
  {
    && (why.kind.FileShare? ==> op == SwList(BySweep(BucketShare, why.at, why.listed, why.keys)))
    && (why.kind.BucketShare? ==> op == SwList(BySweep(PasteShare, why.at, why.listed, why.keys)))
    && (why.kind.PasteShare? ==> op == Done(Swept(why.listed, why.keys)))
  }

  /**
   Alone, one pass of the machine's sweep does what SweepKind does, whichever deletions fail, and goes
   on to the next kind.
   */
  lemma SoloPass(w: World, id: nat, why: Why, calls: PassCalls, l: Listing)
    requires why.BySweep? && Listed(w, why.kind, true, l) && calls.Fit(l)
    ensures var items := ItemsOf(w, why.kind, l.refs); var after := AfterPass(w, calls, l);
            && Fits(items, calls.blobOk, calls.deleteOk)
            && var next := RunOp(w, id, SwList(why), ListChoices(why.kind, l.refs) +
                                                     SweepFates(items, calls.blobOk, calls.deleteOk, |items|));
               && GoesOn(next.1, Noted(why.(at := w.now), items))
               && SameTables(next.0, after.rows, after.bfiles, after.nextId, after.blobs)
  {
    var items := ItemsOf(w, why.kind, l.refs);
    var n := |items|;
    ItemsAreListed(w, why.kind, calls, l);
    SoloListing(w, id, why, l);
    RunOpSplits(w, id, SwList(why), ListChoices(why.kind, l.refs), SweepFates(items, calls.blobOk, calls.deleteOk, n));
    var mid := RunOp(w, id, SwList(why), ListChoices(why.kind, l.refs));
    SoloSweep(mid.0, id, Noted(why.(at := w.now), items), items, calls.blobOk, calls.deleteOk, n);
    assert items[n..] == [];
    var last := RunOp(mid.0, id, mid.1, SweepFates(items, calls.blobOk, calls.deleteOk, n));
    SweptToEnd(w, mid.0, items, calls, l, last.0);
  }

  lemma SweptToEnd(w: World, mid: World, items: seq<Item>, calls: PassCalls, l: Listing, w': World)
    requires calls.Fit(l) && RefsOf(items) == l.refs && ListsOf(items) == l.lists
    requires Fits(items, calls.blobOk, calls.deleteOk) && SameTables(mid, w.rows, w.bfiles, w.nextId, w.blobs)
    requires SweptTo(mid, items, calls.blobOk, calls.deleteOk, |items|, w')
    ensures var after := AfterPass(w, calls, l); SameTables(w', after.rows, after.bfiles, after.nextId, after.blobs)
  {
    assert RefsOf(items)[..|items|] == l.refs && ListsOf(items)[..|items|] == l.lists;
  }

  lemma QueryFails(w: World, id: nat, why: Why, todo: seq<Item>, items: seq<Item>)
    requires why.BySweep? && todo != []
    ensures StepOp(w, id, SwFiles(why, todo, items), Fail) == (w, NextSweep(why))
  {
  }

  /** A pass whose listing fails, in the rows' query or in the query for the files of some bucket, removes nothing. */
  lemma SoloPassFails(w: World, id: nat, why: Why, refs: seq<Ref>, k: nat)
    requires why.BySweep?
    ensures var next := RunOp(w, id, SwList(why), [Fail]); next.0 == w && GoesOn(next.1, why)
    ensures why.kind.BucketShare? && ListsExpired(w, why.kind, refs) && k < |refs| ==>
              var next := RunOp(w, id, SwList(why), [Order(refs)] + (Successes(k) + [Fail]));
              && GoesOn(next.1, why.(at := w.now))
              && SameTables(next.0, w.rows, w.bfiles, w.nextId, w.blobs)
  {
    OnlyStep(w, id, SwList(why), Fail);
    if why.kind.BucketShare? && ListsExpired(w, why.kind, refs) && k < |refs| {
      var why' := why.(at := w.now);
      var todo := ItemsFor(w, refs);
      OrderMoves(w, id, why, refs);
      FirstStep(w, id, SwList(why), Order(refs), Successes(k) + [Fail]);
      SoloQueries(w, id, why', todo, k);
      RunOpSplits(w, id, SwFiles(why', todo, []), Successes(k), [Fail]);
      var mid := RunOp(w, id, SwFiles(why', todo, []), Successes(k));
      OnlyStep(mid.0, id, mid.1, Fail);
      QueryFails(mid.0, id, why', todo[k..], WithFiles(w, todo[..k]));
    }
  }
}
