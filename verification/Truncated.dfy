/** The inputs for which a ZIP that ends without error is not the bucket that was uploaded. */
module Truncated {
  import opened Wrappers
  import opened Shares
  import opened Machine

  const SLUG: string := "aaaaaaaaaaaa"
  const KEY: string := "bbbbbbbbbbbb"
  const INPUT: Input := Input("notes.txt", 1, "text/plain", [65])
  const BUCKET: Ref := Ref(BucketShare, SLUG)
  const META: Meta := Meta("secret", "", false, None, BucketInfo)
  const MEMBER: Member := Member(KEY, INPUT)

  /** The world after slug and key are drawn and k of the four creation steps are made. */
  function Drawn(now: int, bcrypt: (string, string) -> bool): World {
    InitialWorld(now, bcrypt).(
      tickets := map[SLUG := Ticket(0, ForBucket(META, [INPUT])), KEY := Ticket(0, ForMember(SLUG, [65]))],
      blobs := map[KEY := [65]])
  }

  function Inserted(now: int, bcrypt: (string, string) -> bool): World {
    Drawn(now, bcrypt).(rows := map[BUCKET := Row(META, None)], born := map[BUCKET := META],
                        plan := map[SLUG := [MEMBER]], added := map[SLUG := 0])
  }

  function Stocked(now: int, bcrypt: (string, string) -> bool): World {
    Inserted(now, bcrypt).(bfiles := [BRow(1, SLUG, AsFile(MEMBER))], nextId := 2, added := map[SLUG := 1])
  }

  function Completed(now: int, bcrypt: (string, string) -> bool): World {
    Stocked(now, bcrypt).(ended := {SLUG}, completed := {SLUG})
  }

  /** The bucket is deleted again: its row, its file row and its blob. */
  function Gone(now: int, bcrypt: (string, string) -> bool): World {
    Completed(now, bcrypt).(rows := map[], bfiles := [], blobs := map[])
  }

  const REQUEST: Request := NewBucket(SLUG, "secret", "", false, "never", [INPUT])

  function Requested(now: int, bcrypt: (string, string) -> bool): World {
    InitialWorld(now, bcrypt).(tickets := map[SLUG := Ticket(0, ForBucket(META, [INPUT]))])
  }

  lemma Begins(now: int, bcrypt: (string, string) -> bool)
    ensures Possible(InitialWorld(now, bcrypt), REQUEST)
    ensures Begin(InitialWorld(now, bcrypt), 0, REQUEST) == (Requested(now, bcrypt), CrWrite(SLUG, META, [INPUT], []))
  {
    assert InitialWorld(now, bcrypt).tickets[SLUG := Ticket(0, ForBucket(META, [INPUT]))] ==
           map[SLUG := Ticket(0, ForBucket(META, [INPUT]))];
  }

  lemma Draws(now: int, bcrypt: (string, string) -> bool)
    ensures StepOp(Requested(now, bcrypt), 0, CrWrite(SLUG, META, [INPUT], []), Draw(KEY)) ==
              (Drawn(now, bcrypt), CrWrite(SLUG, META, [INPUT], [MEMBER]))
  {
    assert FreshSlug(Requested(now, bcrypt), KEY);
    assert [] + [MEMBER] == [MEMBER];
  }

  lemma RowInsert(now: int, bcrypt: (string, string) -> bool)
    ensures StepOp(Drawn(now, bcrypt), 0, CrWrite(SLUG, META, [INPUT], [MEMBER]), Succeed) ==
              (Inserted(now, bcrypt), CrAdd(SLUG, [MEMBER], 0))
  {
  }

  lemma FileInsert(now: int, bcrypt: (string, string) -> bool)
    ensures StepOp(Inserted(now, bcrypt), 0, CrAdd(SLUG, [MEMBER], 0), Succeed) ==
              (Stocked(now, bcrypt), CrAdd(SLUG, [MEMBER], 1))
  {
    var w := Inserted(now, bcrypt);
    assert w.bfiles + [BRow(1, SLUG, AsFile(MEMBER))] == [BRow(1, SLUG, AsFile(MEMBER))];
    assert w.added[SLUG := 1] == map[SLUG := 1];
  }

  lemma CreateReturns(now: int, bcrypt: (string, string) -> bool)
    ensures StepOp(Stocked(now, bcrypt), 0, CrAdd(SLUG, [MEMBER], 1), Succeed) ==
              (Completed(now, bcrypt), Done(Stored(BUCKET)))
  {
    assert {} + {SLUG} == {SLUG};
  }

  /** The row query of a ZIP, then a whole removal. */
  lemma RowQuery(now: int, bcrypt: (string, string) -> bool)
    ensures StepOp(Completed(now, bcrypt), 1, RdRow(BUCKET, "", Fetch), Succeed) ==
              (Completed(now, bcrypt), RdFiles(BUCKET, "", Fetch, META))
  {
  }

  const LISTED: Item := Item(BUCKET, META, [AsFile(MEMBER)], 0)

  lemma OneFileListed(now: int, bcrypt: (string, string) -> bool)
    ensures FilesOf(Completed(now, bcrypt).bfiles, SLUG) == [AsFile(MEMBER)]
    ensures DropBucket(Completed(now, bcrypt).bfiles, SLUG) == []
  {
    var row := BRow(1, SLUG, AsFile(MEMBER));
    assert [] + [row] == [row];
    FilesOfAppend([], row, SLUG);
  }

  lemma RemovalLists(now: int, bcrypt: (string, string) -> bool)
    ensures var w := Completed(now, bcrypt);
            && StepOp(w, 2, DlRow(BUCKET, "secret"), Succeed) == (w, DlFiles(BUCKET, "secret", META))
            && StepOp(w, 2, DlFiles(BUCKET, "secret", META), Succeed) == (w, Purge(BySecret("secret"), [LISTED]))
  {
    OneFileListed(now, bcrypt);
  }

  lemma RemovalDropsBlob(now: int, bcrypt: (string, string) -> bool)
    ensures StepOp(Completed(now, bcrypt), 2, Purge(BySecret("secret"), [LISTED]), Succeed) ==
              (Completed(now, bcrypt).(blobs := map[]), Purge(BySecret("secret"), [LISTED.(pos := 1)]))
  {
    assert Completed(now, bcrypt).blobs - {KEY} == map[];
    assert [LISTED.(pos := 1)] + [LISTED][1..] == [LISTED.(pos := 1)];
  }

  lemma RemovalDropsRow(now: int, bcrypt: (string, string) -> bool)
    ensures StepOp(Completed(now, bcrypt).(blobs := map[]), 2, Purge(BySecret("secret"), [LISTED.(pos := 1)]),
            Succeed) ==
              (Gone(now, bcrypt), Done(Removed(BUCKET)))
  {
    OneFileListed(now, bcrypt);
    assert Completed(now, bcrypt).rows - {BUCKET} == map[];
  }

  /** The rest of the ZIP: nothing to list, nothing to send, no error. */
  lemma ZipEnds(now: int, bcrypt: (string, string) -> bool)
    ensures var w := Gone(now, bcrypt);
            && StepOp(w, 1, RdFiles(BUCKET, "", Fetch, META), Succeed) == (w, RdCheck(BUCKET, "", Fetch, META, []))
            && StepOp(w, 1, RdCheck(BUCKET, "", Fetch, META, []), Succeed) == (w, RdSend(BUCKET, Fetch, META, [], []))
            && StepOp(w, 1, RdSend(BUCKET, Fetch, META, [], []), Succeed) ==
                 (w, Done(Sent(BUCKET, Fetch, META, [], [])))
  {
  }

  /* ---------- the run ---------- */

  lemma Moves(s0: Sys, es: seq<Event>, s: Sys, id: nat, c: Choice, next: (World, Op))
    requires Run(s0, es) == s && id in s.ops && StepOp(s.w, id, s.ops[id], c) == next
    ensures Run(s0, es + [Advance(id, c)]) == Sys(next.0, s.ops[id := next.1])
  {
    assert (es + [Advance(id, c)])[..|es|] == es;
  }

  lemma Arrives(s0: Sys, es: seq<Event>, s: Sys, id: nat, req: Request)
    requires Run(s0, es) == s && id !in s.ops && Possible(s.w, req)
    ensures Run(s0, es + [Start(id, req)]) == (var next := Begin(s.w, id, req); Sys(next.0, s.ops[id := next.1]))
  {
    assert (es + [Start(id, req)])[..|es|] == es;
  }

  lemma DrawnRun(now: int, bcrypt: (string, string) -> bool) returns (es: seq<Event>)
    ensures Run(Initial(now, bcrypt), es) == Sys(Drawn(now, bcrypt), map[0 := CrWrite(SLUG, META, [INPUT], [MEMBER])])
  {
    var s := Initial(now, bcrypt);
    Begins(now, bcrypt);
    Arrives(s, [], s, 0, REQUEST);
    es := [] + [Start(0, REQUEST)];
    Draws(now, bcrypt);
    Moves(s, es, Run(s, es), 0, Draw(KEY), (Drawn(now, bcrypt), CrWrite(SLUG, META, [INPUT], [MEMBER])));
    es := es + [Advance(0, Draw(KEY))];
  }

  lemma InsertedRun(now: int, bcrypt: (string, string) -> bool) returns (es: seq<Event>)
    ensures Run(Initial(now, bcrypt), es) == Sys(Inserted(now, bcrypt), map[0 := CrAdd(SLUG, [MEMBER], 0)])
  {
    es := DrawnRun(now, bcrypt);
    RowInsert(now, bcrypt);
    Moves(Initial(now, bcrypt), es, Run(Initial(now, bcrypt), es), 0, Succeed,
          (Inserted(now, bcrypt), CrAdd(SLUG, [MEMBER], 0)));
    es := es + [Advance(0, Succeed)];
  }

  lemma StockedRun(now: int, bcrypt: (string, string) -> bool) returns (es: seq<Event>)
    ensures Run(Initial(now, bcrypt), es) == Sys(Stocked(now, bcrypt), map[0 := CrAdd(SLUG, [MEMBER], 1)])
  {
    es := InsertedRun(now, bcrypt);
    FileInsert(now, bcrypt);
    Moves(Initial(now, bcrypt), es, Run(Initial(now, bcrypt), es), 0, Succeed,
          (Stocked(now, bcrypt), CrAdd(SLUG, [MEMBER], 1)));
    es := es + [Advance(0, Succeed)];
  }

  lemma CreatedRun(now: int, bcrypt: (string, string) -> bool) returns (es: seq<Event>)
    ensures Run(Initial(now, bcrypt), es) == Sys(Completed(now, bcrypt), map[0 := Done(Stored(BUCKET))])
  {
    es := StockedRun(now, bcrypt);
    CreateReturns(now, bcrypt);
    Moves(Initial(now, bcrypt), es, Run(Initial(now, bcrypt), es), 0, Succeed,
          (Completed(now, bcrypt), Done(Stored(BUCKET))));
    es := es + [Advance(0, Succeed)];
  }

  lemma LookupRun(now: int, bcrypt: (string, string) -> bool) returns (es: seq<Event>)
    ensures Run(Initial(now, bcrypt), es) ==
              Sys(Completed(now, bcrypt), map[0 := Done(Stored(BUCKET)), 1 := RdRow(BUCKET, "", Fetch)])
  {
    es := CreatedRun(now, bcrypt);
    Arrives(Initial(now, bcrypt), es, Run(Initial(now, bcrypt), es), 1, Read(BUCKET, "", Fetch));
    es := es + [Start(1, Read(BUCKET, "", Fetch))];
  }

  /** Event p is the ZIP's row query: the bucket is complete, with its row and its file row. */
  ghost predicate LookedUpAt(s0: Sys, es: seq<Event>, p: nat) {
    && p < |es| && es[p] == Advance(1, Succeed)
    && var s := Run(s0, es[..p]);
       && 1 in s.ops && s.ops[1] == RdRow(BUCKET, "", Fetch)
       && SLUG in s.w.completed && BUCKET in s.w.rows && FilesOf(s.w.bfiles, SLUG) == [AsFile(MEMBER)]
  }

  /** Event q is the ZIP's file query: the bucket's row is gone. */
  ghost predicate QueriedAt(s0: Sys, es: seq<Event>, q: nat) {
    && q < |es| && es[q] == Advance(1, Succeed)
    && var s := Run(s0, es[..q]);
       1 in s.ops && s.ops[1] == RdFiles(BUCKET, "", Fetch, META) && BUCKET !in s.w.rows
  }

  lemma LookedUpStays(s0: Sys, es: seq<Event>, p: nat, e: Event)
    ensures LookedUpAt(s0, es, p) ==> LookedUpAt(s0, es + [e], p)
    ensures QueriedAt(s0, es, p) ==> QueriedAt(s0, es + [e], p)
  {
    if p < |es| { assert (es + [e])[..p] == es[..p]; }
  }

  lemma ReadRun(now: int, bcrypt: (string, string) -> bool) returns (es: seq<Event>, p: nat)
    ensures Run(Initial(now, bcrypt), es) ==
              Sys(Completed(now, bcrypt), map[0 := Done(Stored(BUCKET)), 1 := RdFiles(BUCKET, "", Fetch, META)])
    ensures LookedUpAt(Initial(now, bcrypt), es, p)
  {
    es := LookupRun(now, bcrypt);
    p := |es|;
    RowQuery(now, bcrypt);
    OneFileListed(now, bcrypt);
    Moves(Initial(now, bcrypt), es, Run(Initial(now, bcrypt), es), 1, Succeed,
          (Completed(now, bcrypt), RdFiles(BUCKET, "", Fetch, META)));
    assert (es + [Advance(1, Succeed)])[..p] == es;
    es := es + [Advance(1, Succeed)];
  }

  /** The operations while the ZIP has made its first query and the removal is at `op`. */
  function Meanwhile(op: Op): map<nat, Op> {
    map[0 := Done(Stored(BUCKET)), 1 := RdFiles(BUCKET, "", Fetch, META), 2 := op]
  }

  lemma MeanwhileMoves(s0: Sys, es: seq<Event>, w: World, op: Op, w': World, op': Op)
    requires Run(s0, es) == Sys(w, Meanwhile(op)) && StepOp(w, 2, op, Succeed) == (w', op')
    ensures Run(s0, es + [Advance(2, Succeed)]) == Sys(w', Meanwhile(op'))
  {
    Moves(s0, es, Sys(w, Meanwhile(op)), 2, Succeed, (w', op'));
  }

  lemma OpenRun(now: int, bcrypt: (string, string) -> bool) returns (es: seq<Event>, p: nat)
    ensures Run(Initial(now, bcrypt), es) == Sys(Completed(now, bcrypt), Meanwhile(DlRow(BUCKET, "secret")))
    ensures LookedUpAt(Initial(now, bcrypt), es, p)
  {
    var s, delete := Initial(now, bcrypt), Start(2, Delete(BUCKET, "secret"));
    es, p := ReadRun(now, bcrypt);
    Arrives(s, es, Run(s, es), 2, Delete(BUCKET, "secret"));
    LookedUpStays(s, es, p, delete);
    es := es + [delete];
  }

  /** One more successful step of the removal. */
  lemma RemovalGoesOn(s0: Sys, es: seq<Event>, p: nat, w: World, op: Op, w': World, op': Op) returns (more: seq<Event>)
    requires Run(s0, es) == Sys(w, Meanwhile(op)) && StepOp(w, 2, op, Succeed) == (w', op') && LookedUpAt(s0, es, p)
    ensures Run(s0, more) == Sys(w', Meanwhile(op')) && LookedUpAt(s0, more, p)
  {
    MeanwhileMoves(s0, es, w, op, w', op');
    LookedUpStays(s0, es, p, Advance(2, Succeed));
    more := es + [Advance(2, Succeed)];
  }

  lemma ListedRun(now: int, bcrypt: (string, string) -> bool) returns (es: seq<Event>, p: nat)
    ensures Run(Initial(now, bcrypt), es) ==
              Sys(Completed(now, bcrypt), Meanwhile(Purge(BySecret("secret"), [LISTED])))
    ensures LookedUpAt(Initial(now, bcrypt), es, p)
  {
    var s, w, files := Initial(now, bcrypt), Completed(now, bcrypt), DlFiles(BUCKET, "secret", META);
    es, p := OpenRun(now, bcrypt);
    RemovalLists(now, bcrypt);
    es := RemovalGoesOn(s, es, p, w, DlRow(BUCKET, "secret"), w, files);
    es := RemovalGoesOn(s, es, p, w, files, w, Purge(BySecret("secret"), [LISTED]));
  }

  lemma RemovalRun(now: int, bcrypt: (string, string) -> bool) returns (es: seq<Event>, p: nat)
    ensures Run(Initial(now, bcrypt), es) == Sys(Gone(now, bcrypt), Meanwhile(Done(Removed(BUCKET))))
    ensures LookedUpAt(Initial(now, bcrypt), es, p)
  {
    var s, w := Initial(now, bcrypt), Completed(now, bcrypt);
    var blob, row := Purge(BySecret("secret"), [LISTED]), Purge(BySecret("secret"), [LISTED.(pos := 1)]);
    es, p := ListedRun(now, bcrypt);
    RemovalDropsBlob(now, bcrypt);
    es := RemovalGoesOn(s, es, p, w, blob, w.(blobs := map[]), row);
    RemovalDropsRow(now, bcrypt);
    es := RemovalGoesOn(s, es, p, w.(blobs := map[]), row, Gone(now, bcrypt), Done(Removed(BUCKET)));
  }

  /** The operations once the removal is done and the ZIP is at `op`. */
  function Afterwards(op: Op): map<nat, Op> {
    map[0 := Done(Stored(BUCKET)), 1 := op, 2 := Done(Removed(BUCKET))]
  }

  lemma AfterwardsMoves(s0: Sys, es: seq<Event>, w: World, op: Op, op': Op)
    requires Run(s0, es) == Sys(w, Afterwards(op)) && StepOp(w, 1, op, Succeed) == (w, op')
    ensures Run(s0, es + [Advance(1, Succeed)]) == Sys(w, Afterwards(op'))
  {
    Moves(s0, es, Sys(w, Afterwards(op)), 1, Succeed, (w, op'));
  }

  lemma QueryRun(now: int, bcrypt: (string, string) -> bool) returns (es: seq<Event>, p: nat)
    ensures Run(Initial(now, bcrypt), es) == Sys(Gone(now, bcrypt), Afterwards(RdCheck(BUCKET, "", Fetch, META, [])))
    ensures p < |es| - 1 && LookedUpAt(Initial(now, bcrypt), es, p) && QueriedAt(Initial(now, bcrypt), es, |es| - 1)
  {
    var s, w := Initial(now, bcrypt), Gone(now, bcrypt);
    es, p := RemovalRun(now, bcrypt);
    assert Meanwhile(Done(Removed(BUCKET))) == Afterwards(RdFiles(BUCKET, "", Fetch, META));
    ZipEnds(now, bcrypt);
    AfterwardsMoves(s, es, w, RdFiles(BUCKET, "", Fetch, META), RdCheck(BUCKET, "", Fetch, META, []));
    LookedUpStays(s, es, p, Advance(1, Succeed));
    assert (es + [Advance(1, Succeed)])[..|es|] == es;
    es := es + [Advance(1, Succeed)];
  }

  /** One more step of the ZIP after its file query. */
  lemma ZipGoesOn(s0: Sys, es: seq<Event>, p: nat, q: nat, w: World, op: Op, op': Op) returns (more: seq<Event>)
    requires Run(s0, es) == Sys(w, Afterwards(op)) && StepOp(w, 1, op, Succeed) == (w, op')
    requires LookedUpAt(s0, es, p) && QueriedAt(s0, es, q)
    ensures Run(s0, more) == Sys(w, Afterwards(op')) && LookedUpAt(s0, more, p) && QueriedAt(s0, more, q)
  {
    AfterwardsMoves(s0, es, w, op, op');
    LookedUpStays(s0, es, p, Advance(1, Succeed));
    LookedUpStays(s0, es, q, Advance(1, Succeed));
    more := es + [Advance(1, Succeed)];
  }

  lemma ZipRun(now: int, bcrypt: (string, string) -> bool) returns (es: seq<Event>, p: nat, q: nat)
    ensures Run(Initial(now, bcrypt), es) ==
              Sys(Gone(now, bcrypt), Afterwards(Done(Sent(BUCKET, Fetch, META, [], []))))
    ensures p < q && LookedUpAt(Initial(now, bcrypt), es, p) && QueriedAt(Initial(now, bcrypt), es, q)
  {
    var s, w, send := Initial(now, bcrypt), Gone(now, bcrypt), RdSend(BUCKET, Fetch, META, [], []);
    es, p := QueryRun(now, bcrypt);
    q := |es| - 1;
    ZipEnds(now, bcrypt);
    es := ZipGoesOn(s, es, p, q, w, RdCheck(BUCKET, "", Fetch, META, []), send);
    es := ZipGoesOn(s, es, p, q, w, send, Done(Sent(BUCKET, Fetch, META, [], [])));
  }

  /**
   A bucket with one file, created with success and complete at the row query of a ZIP's lookup, is
   deleted before its file query: the ZIP is sent without error and holds nothing.
   */
  lemma EmptyZip(now: int, bcrypt: (string, string) -> bool)
    ensures exists es, p, q ::
              && p < q && LookedUpAt(Initial(now, bcrypt), es, p) && QueriedAt(Initial(now, bcrypt), es, q)
              && EndsEmpty(Run(Initial(now, bcrypt), es))
  {
    var es, p, q := ZipRun(now, bcrypt);
    assert EndsEmpty(Run(Initial(now, bcrypt), es));
  }

  /** The slug was drawn for a one-file bucket, and the ZIP of it has been sent with no entry. */
  predicate EndsEmpty(t: Sys) {
    && SLUG in t.w.tickets && t.w.tickets[SLUG].use == ForBucket(META, [INPUT])
    && 1 in t.ops && t.ops[1] == Done(Sent(BUCKET, Fetch, META, [], []))
  }
}
