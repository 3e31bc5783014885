/** Each change of the shared world keeps its invariant and gives the guarantee. */
module Effects {
  import opened Images
  import opened Shares
  import opened Machine
  import opened Invariant
  import Expiry

  /* ---------- frames: what each part of the invariant looks at ---------- */

  predicate SameTickets(w: World, w': World) {
    forall k :: k in w.tickets ==> k in w'.tickets && w'.tickets[k] == w.tickets[k]
  }

  lemma BornKept(w: World, w': World)
    requires BornOk(w) && SameTickets(w, w') && w'.born == w.born && w'.plan == w.plan
    ensures BornOk(w')
  {
    forall r | r in w'.born ensures BornFits(w', r) { assert BornFits(w, r); }
  }

  lemma PlanKept(w: World, w': World)
    requires PlanOk(w) && SameTickets(w, w') && w'.plan == w.plan && w'.added == w.added
    requires forall r :: r in w.born ==> r in w'.born
    ensures PlanOk(w')
  {
    forall b | b in w'.plan ensures PlanFits(w', b) { assert PlanFits(w, b); }
  }

  /** TableOk only looks at the bucket rows, the file table and the history behind them. */
  lemma TableKept(w: World, w': World)
    requires TableOk(w) && w'.bfiles == w.bfiles && w'.nextId == w.nextId && w'.plan == w.plan && w'.added == w.added
    requires forall b :: Ref(BucketShare, b) in w'.rows <==> Ref(BucketShare, b) in w.rows
    requires forall b :: Ref(BucketShare, b) in w'.born <==> Ref(BucketShare, b) in w.born
    ensures TableOk(w')
  {
    forall b ensures ListOk(w', b) {
      assert ListOk(w, b);
      assert Owned(w', Ref(BucketShare, b)) == Owned(w, Ref(BucketShare, b));
    }
  }

  /** Three parts that only depend on the draws and the creation history. */
  lemma HistoryKept(w: World, w': World)
    requires BornOk(w) && PlanOk(w) && TableOk(w)
    requires SameTickets(w, w') && w'.born == w.born && w'.plan == w.plan && w'.added == w.added
    requires w'.bfiles == w.bfiles && w'.nextId == w.nextId && w'.rows.Keys == w.rows.Keys
    ensures BornOk(w') && PlanOk(w') && TableOk(w')
  {
    BornKept(w, w');
    PlanKept(w, w');
    assert forall r :: r in w'.rows <==> r in w.rows;
    TableKept(w, w');
  }

  /* ---------- the effects ---------- */

  lemma NothingHappens(w: World, a: nat)
    ensures Guarantee(w, w, a)
  {
  }

  lemma TimePasses(w: World, d: nat, a: nat)
    requires WorldInv(w)
    ensures var w' := w.(now := w.now + d); WorldInv(w') && Guarantee(w, w', a)
  {
    HistoryKept(w, w.(now := w.now + d));
  }

  lemma FaultNoted(w: World, f: Fault, a: nat)
    requires WorldInv(w)
    ensures WorldInv(Blame(w, f)) && Guarantee(w, Blame(w, f), a)
  {
    HistoryKept(w, Blame(w, f));
  }

  lemma NameDrawn(w: World, a: nat, name: string, use: Use)
    requires WorldInv(w) && FreshSlug(w, name)
    ensures var w' := Issue(w, a, name, use); WorldInv(w') && Guarantee(w, w', a)
  {
    HistoryKept(w, Issue(w, a, name, use));
  }

  /** Bytes written under a name whose share does not exist yet. */
  lemma BlobWritten(w: World, a: nat, k: string, meta: Meta, content: Bytes)
    requires WorldInv(w)
    requires k in w.tickets && w.tickets[k].use == ForFile(meta, content) && Ref(FileShare, k) !in w.born
    ensures var w' := w.(blobs := w.blobs[k := content]); WorldInv(w') && Guarantee(w, w', a)
  {
    HistoryKept(w, w.(blobs := w.blobs[k := content]));
  }

  lemma MemberWritten(w: World, a: nat, b: string, k: string, content: Bytes)
    requires WorldInv(w) && FreshSlug(w, k)
    ensures var w' := Issue(w, a, k, ForMember(b, content)).(blobs := w.blobs[k := content]);
            WorldInv(w') && Guarantee(w, w', a)
  {
    HistoryKept(w, Issue(w, a, k, ForMember(b, content)).(blobs := w.blobs[k := content]));
    MemberWrittenGuarantee(w, a, b, k, content);
  }

  lemma MemberWrittenGuarantee(w: World, a: nat, b: string, k: string, content: Bytes)
    requires FreshSlug(w, k)
    ensures Guarantee(w, Issue(w, a, k, ForMember(b, content)).(blobs := w.blobs[k := content]), a)
  {
  }

  lemma BlobDropped(w: World, a: nat, k: string)
    requires WorldInv(w)
    requires UndoFits(w, a, k) || Bound(w, k)
    ensures WorldInv(DropBlob(w, k)) && Guarantee(w, DropBlob(w, k), a)
  {
    HistoryKept(w, DropBlob(w, k));
  }

  lemma RowInsertedInv(w: World, r: Ref, meta: Meta)
    requires WorldInv(w) && r !in w.born && !r.kind.BucketShare?
    requires BornFits(InsertRow(w, r, meta), r)
    ensures WorldInv(InsertRow(w, r, meta))
  {
    var w' := InsertRow(w, r, meta);
    assert BornOk(w') by {
      forall q | q in w'.born ensures BornFits(w', q) { if q != r { assert BornFits(w, q); } }
    }
    PlanKept(w, w');
    TableKept(w, w');
  }

  lemma RowInserted(w: World, a: nat, r: Ref, meta: Meta)
    requires WorldInv(w) && r !in w.born && !r.kind.BucketShare?
    requires r.slug in w.tickets && w.tickets[r.slug].op == a
    requires BornFits(InsertRow(w, r, meta), r)
    ensures WorldInv(InsertRow(w, r, meta)) && Guarantee(w, InsertRow(w, r, meta), a)
  {
    RowInsertedInv(w, r, meta);
  }

  function WithBucket(w: World, slug: string, meta: Meta, stored: seq<Member>): World {
    InsertRow(w, Ref(BucketShare, slug), meta).(plan := w.plan[slug := stored], added := w.added[slug := 0])
  }

  lemma BucketInsertedTables(w: World, a: nat, slug: string, meta: Meta, inputs: seq<Input>, stored: seq<Member>)
    requires BornOk(w) && PlanOk(w) && TableOk(w) && RowsOk(w)
    requires CrWriteInv(w, a, slug, meta, inputs, stored) && |stored| == |inputs|
    ensures var w' := WithBucket(w, slug, meta, stored); BornOk(w') && PlanOk(w') && TableOk(w')
    ensures slug !in w.plan
  {
    var r := Ref(BucketShare, slug);
    var w' := WithBucket(w, slug, meta, stored);
    assert slug !in w.plan by { assert slug in w.plan ==> PlanFits(w, slug); }
    assert BornOk(w') by {
      forall q | q in w'.born ensures BornFits(w', q) { if q != r { assert BornFits(w, q); } }
    }
    assert PlanOk(w') by {
      forall b | b in w'.plan ensures PlanFits(w', b) { if b != slug { assert PlanFits(w, b); } }
    }
    forall b ensures ListOk(w', b) {
      assert ListOk(w, b);
      if b == slug {
        assert r !in w.rows;
        assert Owned(w', r) == [];
      } else {
        assert Owned(w', Ref(BucketShare, b)) == Owned(w, Ref(BucketShare, b));
      }
    }
  }

  lemma BucketInsertedGuarantee(w: World, a: nat, slug: string, meta: Meta, stored: seq<Member>)
    requires Ref(BucketShare, slug) !in w.born && slug !in w.plan && slug !in w.added
    requires slug in w.tickets && w.tickets[slug].op == a
    ensures Guarantee(w, WithBucket(w, slug, meta, stored), a)
  {
  }

  lemma BucketInserted(w: World, a: nat, slug: string, meta: Meta, inputs: seq<Input>, stored: seq<Member>)
    requires WorldInv(w) && CrWriteInv(w, a, slug, meta, inputs, stored) && |stored| == |inputs|
    ensures var w' := WithBucket(w, slug, meta, stored); WorldInv(w') && Guarantee(w, w', a)
    ensures slug !in w.ended
  {
    BucketInsertedTables(w, a, slug, meta, inputs, stored);
    BucketInsertedGuarantee(w, a, slug, meta, stored);
    BucketInsertedRest(w, slug, meta, stored);
  }

  lemma BucketInsertedRest(w: World, slug: string, meta: Meta, stored: seq<Member>)
    requires Ref(BucketShare, slug) !in w.born && slug !in w.plan
    requires RowsOk(w) && BlobsOk(w) && EndedOk(w) && MarkerOk(w) && SlugsOk(w)
    ensures var w' := WithBucket(w, slug, meta, stored);
            RowsOk(w') && BlobsOk(w') && EndedOk(w') && MarkerOk(w') && SlugsOk(w')
  {
  }

  function WithFile(w: World, slug: string, stored: seq<Member>, next: nat): World
    requires next < |stored|
  {
    InsertFile(w, slug, AsFile(stored[next])).(added := w.added[slug := next + 1])
  }

  /** One AddFile appends to what its bucket owns and leaves the others alone. */
  lemma FileAddedOwned(w: World, slug: string, next: nat, b: string)
    requires slug in w.plan && PlanFits(w, slug) && w.added[slug] == next < |w.plan[slug]|
    ensures var r := Ref(BucketShare, b); var stored := w.plan[slug];
            Owned(WithFile(w, slug, stored, next), r) ==
              Owned(w, r) + if b == slug then [AsFile(stored[next])] else []
  {
    var stored := w.plan[slug];
    assert stored[..next + 1] == stored[..next] + [stored[next]];
    assert AsFiles(stored[..next + 1]) == AsFiles(stored[..next]) + [AsFile(stored[next])];
  }

  lemma FileAddedTable(w: World, slug: string, next: nat)
    requires TableOk(w) && slug in w.plan && PlanFits(w, slug)
    requires w.added[slug] == next < |w.plan[slug]| && Ref(BucketShare, slug) in w.rows
    ensures TableOk(WithFile(w, slug, w.plan[slug], next))
  {
    var stored := w.plan[slug];
    var w' := WithFile(w, slug, stored, next);
    forall b ensures ListOk(w', b) {
      assert ListOk(w, b);
      FilesOfAppend(w.bfiles, BRow(w.nextId, slug, AsFile(stored[next])), b);
      FileAddedOwned(w, slug, next, b);
    }
  }

  lemma FileAddedGuarantee(w: World, a: nat, slug: string, stored: seq<Member>, next: nat)
    requires CrAddInv(w, a, slug, stored, next) && next < |stored|
    ensures Guarantee(w, WithFile(w, slug, stored, next), a)
  {
  }

  lemma FileAdded(w: World, a: nat, slug: string, stored: seq<Member>, next: nat)
    requires WorldInv(w) && CrAddInv(w, a, slug, stored, next) && next < |stored|
    requires Ref(BucketShare, slug) in w.rows
    ensures var w' := WithFile(w, slug, stored, next); WorldInv(w') && Guarantee(w, w', a)
  {
    var w' := WithFile(w, slug, stored, next);
    assert PlanFits(w, slug);
    FileAddedTable(w, slug, next);
    BornKept(w, w');
    assert PlanOk(w') by {
      forall b | b in w'.plan ensures PlanFits(w', b) { assert PlanFits(w, b); }
    }
    FileAddedGuarantee(w, a, slug, stored, next);
  }

  lemma CreateEnded(w: World, a: nat, slug: string, stored: seq<Member>, next: nat, completed: set<string>)
    requires WorldInv(w) && CrAddInv(w, a, slug, stored, next)
    requires completed == w.completed || (completed == w.completed + {slug} && next == |stored|)
    ensures var w' := w.(ended := w.ended + {slug}, completed := completed); WorldInv(w') && Guarantee(w, w', a)
  {
    HistoryKept(w, w.(ended := w.ended + {slug}, completed := completed));
  }

  lemma ShareMarkedGuarantee(w: World, a: nat, r: Ref, p: Pass)
    requires r in w.rows && r !in w.marker
    ensures Guarantee(w, Mark(w, r, p), a)
  {
  }

  lemma ShareMarked(w: World, a: nat, r: Ref, pw: string, meta: Meta, files: seq<BFile>, at: int)
    requires WorldInv(w) && RdMarkInv(w, r, pw, meta, files, at)
    requires r in w.rows && w.rows[r].mark.None?
    ensures var w' := Mark(w, r, Pass(a, pw, at)); WorldInv(w') && Guarantee(w, w', a)
  {
    var w' := Mark(w, r, Pass(a, pw, at));
    assert w'.rows.Keys == w.rows.Keys;
    HistoryKept(w, w');
    ShareMarkedRows(w, r, Pass(a, pw, at));
    ShareMarkedGuarantee(w, a, r, Pass(a, pw, at));
  }

  lemma ShareMarkedRows(w: World, r: Ref, p: Pass)
    requires RowsOk(w) && MarkerOk(w) && r in w.rows && w.rows[r].meta.oneUse
    requires PasswordOk(w, w.rows[r].meta, p.pw) && !Expiry.Lapsed(w.rows[r].meta.expires, p.at) && p.at <= w.now
    ensures RowsOk(Mark(w, r, p)) && MarkerOk(Mark(w, r, p))
  {
  }

  lemma RowDeletedList(w: World, r: Ref, b: string)
    requires ListOk(w, b)
    ensures ListOk(DeleteRow(w, r), b)
  {
    FilesOfDrop(w.bfiles, r.slug, b);
    assert Owned(DeleteRow(w, r), Ref(BucketShare, b)) == Owned(w, Ref(BucketShare, b));
  }

  lemma RowDeletedTable(w: World, r: Ref)
    requires TableOk(w)
    ensures TableOk(DeleteRow(w, r))
  {
    DropKeepsOrder(w.bfiles, r.slug, w.nextId);
    forall b ensures ListOk(DeleteRow(w, r), b) {
      assert ListOk(w, b);
      RowDeletedList(w, r, b);
    }
  }

  lemma RowDeleted(w: World, a: nat, r: Ref)
    requires WorldInv(w)
    ensures WorldInv(DeleteRow(w, r)) && Guarantee(w, DeleteRow(w, r), a)
  {
    RowDeletedTable(w, r);
    BornKept(w, DeleteRow(w, r));
    PlanKept(w, DeleteRow(w, r));
  }
}
