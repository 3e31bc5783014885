/**
 What every reachable state satisfies, in rely/guarantee form: an invariant of the shared world, an
 invariant of each operation's program counter, and a guarantee that each step gives to the others.
 */
module Invariant {
  import opened Images
  import opened Shares
  import opened Machine
  import Expiry
  import Slugs

  /** The share a drawn string belongs to. */
  function Home(k: string, use: Use): Ref {
    match use
    case ForFile(_, _) => Ref(FileShare, k)
    case ForPaste(_) => Ref(PasteShare, k)
    case ForBucket(_, _) => Ref(BucketShare, k)
    case ForMember(b, _) => Ref(BucketShare, b)
  }

  predicate NamesBlob(use: Use) {
    use.ForFile? || use.ForMember?
  }

  /** The files whose rows are in the tables while the share's own row lives. */
  function Owned(w: World, r: Ref): seq<BFile> {
    if r !in w.born then []
    else match r.kind
      case FileShare => [OwnFile(r.slug, w.born[r])]
      case PasteShare => []
      case BucketShare =>
        if r.slug in w.plan && r.slug in w.added && w.added[r.slug] <= |w.plan[r.slug]|
        then AsFiles(w.plan[r.slug][..w.added[r.slug]]) else []
  }

  /** A supported image type is only ever recorded for content that carries its signature. */
  predicate Genuine(meta: Meta, content: Bytes) {
    meta.info.FileInfo? && (IsImage(meta.info.mime) ==> HasSignature(meta.info.mime, content))
  }

  /* ---------- the shared world ---------- */

  predicate BornFits(w: World, r: Ref)
    requires r in w.born
  {
    && r.slug in w.tickets
    && match r.kind
       case FileShare =>
         && w.tickets[r.slug].use.ForFile? && w.tickets[r.slug].use.meta == w.born[r]
         && Genuine(w.born[r], w.tickets[r.slug].use.content)
       case PasteShare => w.tickets[r.slug].use == ForPaste(w.born[r]) && w.born[r].info.PasteInfo?
       case BucketShare =>
         && w.tickets[r.slug].use.ForBucket? && w.tickets[r.slug].use.meta == w.born[r]
         && w.born[r].info.BucketInfo? && r.slug in w.plan
  }

  ghost predicate BornOk(w: World) {
    forall r {:trigger BornFits(w, r)} :: r in w.born ==> BornFits(w, r)
  }

  ghost predicate DistinctKeys(ms: seq<Member>) {
    forall i, j :: 0 <= i < j < |ms| ==> ms[i].key != ms[j].key
  }

  /** Members were drawn by operation `op` for bucket b, one per request file, in request order. */
  ghost predicate MembersFit(w: World, op: nat, b: string, inputs: seq<Input>, ms: seq<Member>) {
    && |ms| <= |inputs|
    && DistinctKeys(ms)
    && forall j :: 0 <= j < |ms| ==>
         && ms[j].input == inputs[j]
         && ms[j].key in w.tickets
         && w.tickets[ms[j].key] == Ticket(op, ForMember(b, inputs[j].content))
  }

  ghost predicate PlanFits(w: World, b: string)
    requires b in w.plan
  {
    && Ref(BucketShare, b) in w.born
    && b in w.tickets && w.tickets[b].use.ForBucket?
    && b in w.added && w.added[b] <= |w.plan[b]|
    && |w.plan[b]| == |w.tickets[b].use.inputs|
    && MembersFit(w, w.tickets[b].op, b, w.tickets[b].use.inputs, w.plan[b])
  }

  ghost predicate PlanOk(w: World) {
    && (forall b {:trigger PlanFits(w, b)} :: b in w.plan ==> PlanFits(w, b))
    && (forall b :: b in w.added ==> b in w.plan)
  }

  ghost predicate RowsOk(w: World) {
    forall r :: r in w.rows ==>
      r in w.born && w.rows[r].meta == w.born[r] && (w.rows[r].mark.Some? <==> r in w.marker)
  }

  ghost predicate BlobsOk(w: World) {
    forall k :: k in w.blobs ==>
      k in w.tickets && NamesBlob(w.tickets[k].use) && w.blobs[k] == w.tickets[k].use.content
  }

  /** A live bucket's file rows are exactly the AddFile statements made so far; a dead one has none. */
  ghost predicate ListOk(w: World, b: string) {
    FilesOf(w.bfiles, b) == if Ref(BucketShare, b) in w.rows then Owned(w, Ref(BucketShare, b)) else []
  }

  ghost predicate TableOk(w: World) {
    && InIdOrder(w.bfiles, w.nextId)
    && forall b :: ListOk(w, b)
  }

  ghost predicate EndedOk(w: World) {
    && w.completed <= w.ended
    && (forall b :: b in w.ended ==> b in w.plan)
    && (forall b :: b in w.completed && b in w.plan && b in w.added ==> w.added[b] == |w.plan[b]|)
  }

  /** A mark is only ever set on a one-use share, by a read that had passed its checks. */
  ghost predicate MarkerOk(w: World) {
    forall r :: r in w.marker ==>
      && r in w.born
      && w.born[r].oneUse
      && PasswordOk(w, w.born[r], w.marker[r].pw)
      && !Expiry.Lapsed(w.born[r].expires, w.marker[r].at)
      && w.marker[r].at <= w.now
  }

  ghost predicate SlugsOk(w: World) {
    forall k {:trigger Slugs.IsSlug(k, Slugs.SLUG_LENGTH)} :: k in w.tickets ==> Slugs.IsSlug(k, Slugs.SLUG_LENGTH)
  }

  ghost predicate WorldInv(w: World) {
    BornOk(w) && PlanOk(w) && RowsOk(w) && BlobsOk(w) && TableOk(w) && EndedOk(w) && MarkerOk(w) && SlugsOk(w)
  }

  /* ---------- one operation ---------- */

  /** A snapshot of a share's row; rows never change except for the mark, which no read selects. */
  predicate Snapshot(w: World, r: Ref, meta: Meta) {
    r in w.born && meta == w.born[r]
  }

  /** The entries are the uploaded bytes of the first |entries| files, under their names. */
  ghost predicate Delivers(w: World, files: seq<BFile>, entries: seq<Entry>) {
    && |entries| <= |files|
    && forall j :: 0 <= j < |entries| ==>
         && files[j].key in w.tickets
         && NamesBlob(w.tickets[files[j].key].use)
         && entries[j] == Entry(files[j].filename, w.tickets[files[j].key].use.content)
  }

  /** A listing taken at some time: in full for a file or paste, a prefix for a growing bucket. */
  ghost predicate Lists(w: World, r: Ref, files: seq<BFile>) {
    files <= Owned(w, r) && (!r.kind.BucketShare? ==> files == Owned(w, r))
  }

  /** The files a read is entitled to send. */
  ghost predicate Chosen(w: World, r: Ref, goal: Goal, files: seq<BFile>) {
    match goal
    case OneFile(key) => |files| == 1 && files[0].key == key && files[0] in Owned(w, r)
    case _ => Lists(w, r, files)
  }

  /** What holds from the moment a read may hand out content. */
  ghost predicate Serving(w: World, id: nat, r: Ref, goal: Goal, meta: Meta, files: seq<BFile>, entries: seq<Entry>) {
    && Snapshot(w, r, meta)
    && !goal.MetaOnly?
    && Chosen(w, r, goal, files)
    && Delivers(w, files, entries)
    && (goal.Fetch? && meta.oneUse ==> r in w.marker && w.marker[r].op == id)
  }

  ghost predicate Settled(w: World, r: Ref) {
    r.kind.BucketShare? ==> r.slug in w.ended
  }

  /** Bytes already removed, unless the failed removal is on record. */
  predicate Cleared(w: World, k: string) {
    k !in w.blobs || StoreDeleteFailed(k) in w.faults
  }

  predicate ListedEarly(w: World, r: Ref) {
    r.kind.BucketShare? && ListedMidCreate(r.slug) in w.faults
  }

  /** A share in the course of removal: its listing is complete unless it was taken too early. */
  ghost predicate ItemFits(w: World, why: Why, it: Item) {
    && Snapshot(w, it.ref, it.meta)
    && it.files <= Owned(w, it.ref)
    && it.pos <= |it.files|
    && (forall j :: 0 <= j < it.pos ==> Cleared(w, it.files[j].key))
    && (it.ref !in w.rows || ListedEarly(w, it.ref) || (Settled(w, it.ref) && it.files == Owned(w, it.ref)))
    && Authorized(w, why, it.ref, it.meta)
  }

  /** Why this share may be removed. */
  ghost predicate Authorized(w: World, why: Why, r: Ref, meta: Meta) {
    match why
    case BySecret(secret) => secret == meta.secret
    case BySweep(kind, at, _, _) => r.kind == kind && at <= w.now && Expiry.Sweepable(meta.expires, at)
  }

  /** A blob named by some share's row, past or present. */
  ghost predicate Bound(w: World, k: string) {
    && k in w.tickets && NamesBlob(w.tickets[k].use)
    && Home(k, w.tickets[k].use) in w.born
    && HasKey(Owned(w, Home(k, w.tickets[k].use)), k)
  }

  ghost predicate Awaits(items: seq<Item>, k: string) {
    exists i, j :: 0 <= i < |items| && items[i].pos <= j < |items[i].files| && items[i].files[j].key == k
  }

  ghost predicate AwaitsRow(items: seq<Item>, r: Ref) {
    exists i :: 0 <= i < |items| && items[i].ref == r
  }

  /** Everything a sweep has listed is gone, still to be handled, or has a failed deletion on record. */
  ghost predicate SweepFits(w: World, why: Why, items: seq<Item>) {
    && why.BySweep?
    && (forall r :: r in why.listed ==>
          r in w.born && (r !in w.rows || RowDeleteFailed(r) in w.faults || AwaitsRow(items, r)))
    && (forall k :: k in why.keys ==> Bound(w, k) && (Cleared(w, k) || Awaits(items, k)))
  }

  ghost predicate UndoFits(w: World, id: nat, k: string) {
    && k in w.tickets
    && w.tickets[k].op == id
    && NamesBlob(w.tickets[k].use)
    && Home(k, w.tickets[k].use).slug in w.tickets
    && w.tickets[Home(k, w.tickets[k].use).slug].op == id
    && Home(k, w.tickets[k].use) !in w.born
  }

  ghost predicate DoneInv(w: World, id: nat, o: Outcome) {
    match o
    case Stored(r) => r in w.born && (r.kind.BucketShare? ==> r.slug in w.completed)
    case Accepted(r, meta, files) => Snapshot(w, r, meta) && Lists(w, r, files)
    case Sent(r, goal, meta, files, entries) =>
      Serving(w, id, r, goal, meta, files, entries) && |entries| == |files|
    case Broken(r, goal, meta, files, entries) => Serving(w, id, r, goal, meta, files, entries)
    case Swept(listed, keys) => SweepFits(w, BySweep(PasteShare, w.now, listed, keys), [])
    case _ => true
  }

  ghost predicate UpWriteInv(w: World, id: nat, slug: string, meta: Meta, content: Bytes) {
    && slug in w.tickets && w.tickets[slug] == Ticket(id, ForFile(meta, content))
    && Ref(FileShare, slug) !in w.born && Genuine(meta, content)
  }

  ghost predicate UpInsertInv(w: World, id: nat, slug: string, meta: Meta) {
    && slug in w.tickets && w.tickets[slug].op == id && w.tickets[slug].use.ForFile? && w.tickets[slug].use.meta == meta
    && Ref(FileShare, slug) !in w.born && Genuine(meta, w.tickets[slug].use.content)
    && slug in w.blobs
  }

  ghost predicate PasteInsertInv(w: World, id: nat, slug: string, meta: Meta) {
    && slug in w.tickets && w.tickets[slug] == Ticket(id, ForPaste(meta))
    && Ref(PasteShare, slug) !in w.born && meta.info.PasteInfo?
  }

  ghost predicate UndoInv(w: World, id: nat, keys: seq<string>) {
    forall i :: 0 <= i < |keys| ==> UndoFits(w, id, keys[i])
  }

  ghost predicate CrWriteInv(w: World, id: nat, slug: string, meta: Meta, inputs: seq<Input>, stored: seq<Member>) {
    && slug in w.tickets && w.tickets[slug] == Ticket(id, ForBucket(meta, inputs))
    && Ref(BucketShare, slug) !in w.born && meta.info.BucketInfo?
    && MembersFit(w, id, slug, inputs, stored)
    && forall j :: 0 <= j < |stored| ==> stored[j].key in w.blobs
  }

  ghost predicate CrAddInv(w: World, id: nat, slug: string, stored: seq<Member>, next: nat) {
    && slug in w.tickets && w.tickets[slug].op == id
    && Ref(BucketShare, slug) in w.born
    && slug in w.plan && w.plan[slug] == stored
    && slug in w.added && w.added[slug] == next
    && slug !in w.ended && next <= |stored|
    && forall j :: next <= j < |stored| ==> stored[j].key in w.blobs
  }

  ghost predicate RdMarkInv(w: World, r: Ref, pw: string, meta: Meta, files: seq<BFile>, at: int) {
    && Snapshot(w, r, meta) && Lists(w, r, files)
    && meta.oneUse && PasswordOk(w, meta, pw) && !Expiry.Lapsed(meta.expires, at) && at <= w.now
  }

  ghost predicate SwFilesInv(w: World, why: Why, todo: seq<Item>, items: seq<Item>) {
    && SweepFits(w, why, [])
    && (forall i :: 0 <= i < |todo| ==>
          Snapshot(w, todo[i].ref, todo[i].meta) && todo[i].ref.kind.BucketShare? && todo[i].pos == 0 &&
          Authorized(w, why, todo[i].ref, todo[i].meta))
    && (forall i :: 0 <= i < |items| ==> ItemFits(w, why, items[i]) && items[i].pos == 0)
  }

  ghost predicate PurgeInv(w: World, why: Why, items: seq<Item>) {
    && items != []
    && (forall i :: 0 <= i < |items| ==> ItemFits(w, why, items[i]))
    && (why.BySecret? ==> |items| == 1)
    && (why.BySweep? ==> SweepFits(w, why, items))
  }

  ghost predicate CreateInv(w: World, id: nat, op: Op)
    requires Creates(op)
  {
    match op
    case UpWrite(slug, meta, content) => UpWriteInv(w, id, slug, meta, content)
    case UpInsert(slug, meta) => UpInsertInv(w, id, slug, meta)
    case PasteInsert(slug, meta) => PasteInsertInv(w, id, slug, meta)
    case Undo(keys) => UndoInv(w, id, keys)
    case CrWrite(slug, meta, inputs, stored) => CrWriteInv(w, id, slug, meta, inputs, stored)
    case CrAdd(slug, stored, next) => CrAddInv(w, id, slug, stored, next)
  }

  ghost predicate ReadInv(w: World, id: nat, op: Op)
    requires Reads(op)
  {
    match op
    case RdRow(_, _, _) => true
    case RdFiles(r, _, _, meta) => Snapshot(w, r, meta) && r.kind.BucketShare?
    case RdCheck(r, _, _, meta, files) => Snapshot(w, r, meta) && Lists(w, r, files)
    case RdMark(r, pw, meta, files, at) => RdMarkInv(w, r, pw, meta, files, at)
    case RdSend(r, goal, meta, files, entries) => Serving(w, id, r, goal, meta, files, entries)
  }

  ghost predicate RemoveInv(w: World, op: Op)
    requires Removes(op)
  {
    match op
    case DlRow(_, _) => true
    case DlFiles(r, _, meta) => Snapshot(w, r, meta) && r.kind.BucketShare?
    case SwList(why) => SweepFits(w, why, [])
    case SwFiles(why, todo, items) => SwFilesInv(w, why, todo, items)
    case Purge(why, items) => PurgeInv(w, why, items)
  }

  /** What holds of an operation at its program counter. */
  ghost predicate OpInv(w: World, id: nat, op: Op) {
    if op.Done? then DoneInv(w, id, op.outcome)
    else if Reads(op) then ReadInv(w, id, op)
    else if Removes(op) then RemoveInv(w, op)
    else CreateInv(w, id, op)
  }

  /* ---------- what a step promises to the other operations ---------- */

  /** History only grows, and what it gains belongs to the moving operation `a`. */
  ghost predicate HistoryGrows(w: World, w': World, a: nat) {
    && w.now <= w'.now && w.bcrypt == w'.bcrypt
    && (forall k :: k in w.tickets ==> k in w'.tickets && w'.tickets[k] == w.tickets[k])
    && (forall k :: k in w'.tickets && k !in w.tickets ==> w'.tickets[k].op == a)
    && (forall r :: r in w.born ==> r in w'.born && w'.born[r] == w.born[r])
    && (forall r :: r in w'.born && r !in w.born ==> r.slug in w'.tickets && w'.tickets[r.slug].op == a)
    && (forall b :: b in w.plan ==> b in w'.plan && w'.plan[b] == w.plan[b])
    && (forall b :: b in w.added ==> b in w'.added && w.added[b] <= w'.added[b])
    && (forall b :: b in w.added && b in w.tickets && (w.tickets[b].op != a || b in w.ended) ==>
          w'.added[b] == w.added[b])
    && w.ended <= w'.ended && w.completed <= w'.completed && w.faults <= w'.faults
    && (forall b :: b in w'.ended && b !in w.ended ==> b in w'.tickets && w'.tickets[b].op == a)
    && (forall r :: r in w.marker ==> r in w'.marker && w'.marker[r] == w.marker[r])
  }

  /** Rows never come back; blobs appear only before their share exists and vanish only when owned. */
  ghost predicate StoresMove(w: World, w': World, a: nat) {
    && (forall r :: r in w'.rows && r in w.born ==> r in w.rows)
    && (forall k :: k in w'.blobs && k !in w.blobs ==>
          k !in w.tickets || (w.tickets[k].use.ForFile? && Ref(FileShare, k) !in w.born))
    && (forall k :: k in w.blobs && k !in w'.blobs ==> UndoFits(w, a, k) || Bound(w, k))
  }

  ghost predicate Guarantee(w: World, w': World, a: nat) {
    HistoryGrows(w, w', a) && StoresMove(w, w', a)
  }

  /* ---------- the system ---------- */

  ghost predicate OpsInv(s: Sys) {
    && (forall id :: id in s.ops ==> OpInv(s.w, id, s.ops[id]))
    && (forall k :: k in s.w.tickets ==> s.w.tickets[k].op in s.ops)
  }

  ghost predicate Inv(s: Sys) {
    WorldInv(s.w) && OpsInv(s)
  }
}
