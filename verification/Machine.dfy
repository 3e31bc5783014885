/**
 The share lifecycle as a concurrent step machine.  Every request and every sweep is an operation
 with a program counter; one step is one SQL statement or one blob operation.  An event says who
 moves and what the environment answers, so a run is a sequence of events and every interleaving
 and every fault pattern is some run.
 */
module Machine {
  import opened Wrappers
  import opened Images
  import opened Shares
  import Expiry
  import Slugs

  /** What a string drawn by the slug generator was drawn for: the request as its service understood it. */
  datatype Use =
    | ForFile(meta: Meta, content: Bytes)
    | ForPaste(meta: Meta)
    | ForBucket(meta: Meta, inputs: seq<Input>)
    | ForMember(bucket: string, content: Bytes)

  datatype Ticket = Ticket(op: nat, use: Use)

  /** The events that can leave the two stores out of step. */
  datatype Fault =
    | StoreDeleteFailed(key: string)      // a failed store.Delete was ignored
    | AddFileFailed(bucket: string)       // Create stopped between two AddFile statements
    | ListedMidCreate(bucket: string)     // a remover read the file list before Create was done
    | RowDeleteFailed(ref: Ref)           // repo.Delete failed after the blobs were removed

  /** How the consumed mark was set: by which operation, with which password, checked when. */
  datatype Pass = Pass(op: nat, pw: string, at: int)

  /** The shared state.  The fields after `blobs` are history: no step reads them to decide. */
  datatype World = World(
    now: int,
    bcrypt: (string, string) -> bool,
    rows: map<Ref, Row>,
    bfiles: seq<BRow>,
    nextId: int,
    blobs: map<string, Bytes>,
    tickets: map<string, Ticket>,
    born: map<Ref, Meta>,
    plan: map<string, seq<Member>>,
    added: map<string, nat>,
    ended: set<string>,
    completed: set<string>,
    faults: set<Fault>,
    marker: map<Ref, Pass>)

  /** Get and StreamZIP, the metadata pages, and a single bucket file. */
  datatype Goal = Fetch | MetaOnly | OneFile(key: string)

  /** A share to be removed, the files its remover listed, and how many of those it has handled. */
  datatype Item = Item(ref: Ref, meta: Meta, files: seq<BFile>, pos: nat)

  /** On whose authority a removal runs.  A sweep remembers all it has listed so far. */
  datatype Why =
    | BySecret(secret: string)
    | BySweep(kind: Kind, at: int, listed: set<Ref>, keys: set<string>)

  datatype Outcome =
    | Stored(ref: Ref)
    | Rejected
    | Failed
    | NotFound
    | LapsedShare
    | WrongPassword
    | AlreadyConsumed
    | BadSecret
    | Accepted(ref: Ref, meta: Meta, files: seq<BFile>)
    | Sent(ref: Ref, goal: Goal, meta: Meta, files: seq<BFile>, entries: seq<Entry>)
    | Broken(ref: Ref, goal: Goal, meta: Meta, files: seq<BFile>, entries: seq<Entry>)
    | Removed(ref: Ref)
    | Swept(listed: set<Ref>, keys: set<string>)

  /** Program counters with their local variables. */
  datatype Op =
    | UpWrite(slug: string, meta: Meta, content: Bytes)
    | UpInsert(slug: string, meta: Meta)
    | PasteInsert(slug: string, meta: Meta)
    | Undo(keys: seq<string>)
    | CrWrite(slug: string, meta: Meta, inputs: seq<Input>, stored: seq<Member>)
    | CrAdd(slug: string, stored: seq<Member>, next: nat)
    | RdRow(ref: Ref, pw: string, goal: Goal)
    | RdFiles(ref: Ref, pw: string, goal: Goal, meta: Meta)
    | RdCheck(ref: Ref, pw: string, goal: Goal, meta: Meta, files: seq<BFile>)
    | RdMark(ref: Ref, pw: string, meta: Meta, files: seq<BFile>, at: int)
    | RdSend(ref: Ref, goal: Goal, meta: Meta, files: seq<BFile>, entries: seq<Entry>)
    | DlRow(ref: Ref, secret: string)
    | DlFiles(ref: Ref, secret: string, meta: Meta)
    | SwList(why: Why)
    | SwFiles(why: Why, todo: seq<Item>, items: seq<Item>)
    | Purge(why: Why, items: seq<Item>)
    | Done(outcome: Outcome)

  /** Upload, paste creation and bucket creation, with their rollback. */
  predicate Creates(op: Op) {
    op.UpWrite? || op.UpInsert? || op.PasteInsert? || op.Undo? || op.CrWrite? || op.CrAdd?
  }

  /** Get, StreamZIP, GetFile and the metadata reads. */
  predicate Reads(op: Op) {
    op.RdRow? || op.RdFiles? || op.RdCheck? || op.RdMark? || op.RdSend?
  }

  /** Delete and the sweep. */
  predicate Removes(op: Op) {
    op.DlRow? || op.DlFiles? || op.SwList? || op.SwFiles? || op.Purge?
  }

  datatype Request =
    | Upload(slug: string, secret: string, pwHash: string, oneUse: bool, expiry: string,
             filename: string, size: int, body: Bytes, peek: nat, sniffed: string)
    | NewPaste(slug: string, secret: string, pwHash: string, oneUse: bool, expiry: string,
               title: string, text: string, lang: string)
    | NewBucket(slug: string, secret: string, pwHash: string, oneUse: bool, expiry: string,
                inputs: seq<Input>)
    | Read(ref: Ref, pw: string, goal: Goal)
    | Delete(ref: Ref, secret: string)
    | Sweep

  /** The environment's answer to the call an operation makes. */
  datatype Choice =
    | Succeed
    | Fail                        // the call returns an error and changes nothing
    | FailLate                    // the UPDATE is applied but reading RowsAffected fails
    | Draw(key: string)           // a fresh storage key, and the write under it succeeds
    | Order(refs: seq<Ref>)       // the order in which a listing returns its rows

  datatype Event = Tick(d: nat) | Start(id: nat, req: Request) | Advance(id: nat, choice: Choice)

  datatype Sys = Sys(w: World, ops: map<nat, Op>)

  function InitialWorld(now: int, bcrypt: (string, string) -> bool): World {
    World(now, bcrypt, map[], [], 1, map[], map[], map[], map[], map[], {}, {}, {}, map[])
  }

  function Initial(now: int, bcrypt: (string, string) -> bool): Sys {
    Sys(InitialWorld(now, bcrypt), map[])
  }

  /** The strings a request draws have the generator's shape, and its slug was never drawn before. */
  predicate FreshSlug(w: World, slug: string) {
    slug !in w.tickets && Slugs.IsSlug(slug, Slugs.SLUG_LENGTH)
  }

  predicate Possible(w: World, req: Request) {
    match req
    case Upload(slug, _, _, _, _, _, _, body, peek, _) =>
      FreshSlug(w, slug) && peek <= |body| && peek <= PEEK_LIMIT
    case NewPaste(slug, _, _, _, _, _, _, _) => FreshSlug(w, slug)
    case NewBucket(slug, _, _, _, _, _) => FreshSlug(w, slug)
    case Read(ref, _, goal) =>
      (goal.OneFile? ==> ref.kind.BucketShare?) && (goal.MetaOnly? ==> !ref.kind.PasteShare?)
    case _ => true
  }

  function Issue(w: World, id: nat, name: string, use: Use): World {
    w.(tickets := w.tickets[name := Ticket(id, use)])
  }

  /** The expires_at column of a share created now. */
  function ExpiresAt(w: World, preset: string): Option<int>
    requires preset in Expiry.PRESETS
  {
    Expiry.Column(Expiry.Deadline(preset, w.now))
  }

  /** A request arrives: local validation, slug generation and deadline computation. */
  function Begin(w: World, id: nat, req: Request): (World, Op)
    requires Possible(w, req)
  {
    match req
    case Upload(slug, secret, pwHash, oneUse, expiry, filename, size, body, peek, sniffed) =>
      if expiry !in Expiry.PRESETS then (w, Done(Rejected))
      else
        var content := Recombine(body, peek);
        var mime := Decide(sniffed, body[..peek]);
        var meta := Meta(secret, pwHash, oneUse, ExpiresAt(w, expiry), FileInfo(filename, size, mime));
        (Issue(w, id, slug, ForFile(meta, content)), UpWrite(slug, meta, content))
    case NewPaste(slug, secret, pwHash, oneUse, expiry, title, text, lang) =>
      if expiry !in Expiry.PRESETS || text == "" then (w, Done(Rejected))
      else
        var meta := Meta(secret, pwHash, oneUse, ExpiresAt(w, expiry),
                         PasteInfo(title, text, if lang == "" then "text" else lang));
        (Issue(w, id, slug, ForPaste(meta)), PasteInsert(slug, meta))
    case NewBucket(slug, secret, pwHash, oneUse, expiry, inputs) =>
      if expiry !in Expiry.PRESETS then (w, Done(Rejected))
      else
        var meta := Meta(secret, pwHash, oneUse, ExpiresAt(w, expiry), BucketInfo);
        (Issue(w, id, slug, ForBucket(meta, inputs)), CrWrite(slug, meta, inputs, []))
    case Read(ref, pw, goal) => (w, RdRow(ref, pw, goal))
    case Delete(ref, secret) => (w, DlRow(ref, secret))
    case Sweep => (w, SwList(BySweep(FileShare, w.now, {}, {})))
  }

  function Blame(w: World, f: Fault): World {
    w.(faults := w.faults + {f})
  }

  /** INSERT of a files, buckets or pastes row. */
  function InsertRow(w: World, r: Ref, meta: Meta): World {
    w.(rows := w.rows[r := Row(meta, None)], born := w.born[r := meta])
  }

  /** INSERT of a bucket_files row. */
  function InsertFile(w: World, b: string, f: BFile): World {
    w.(bfiles := w.bfiles + [BRow(w.nextId, b, f)], nextId := w.nextId + 1)
  }

  /** DELETE of a row by slug; bucket files cascade. */
  function DeleteRow(w: World, r: Ref): World {
    w.(rows := w.rows - {r}, bfiles := if r.kind.BucketShare? then DropBucket(w.bfiles, r.slug) else w.bfiles)
  }

  function DropBlob(w: World, k: string): World {
    w.(blobs := w.blobs - {k})
  }

  function UndoNext(keys: seq<string>): Op {
    if keys == [] then Done(Failed) else Undo(keys)
  }

  function KeysOf(ms: seq<Member>): (ks: seq<string>)
    ensures |ks| == |ms| && forall i :: 0 <= i < |ms| ==> ks[i] == ms[i].key
  {
    seq(|ms|, i requires 0 <= i < |ms| => ms[i].key)
  }

  predicate PasswordOk(w: World, meta: Meta, pw: string) {
    meta.pwHash == "" || (pw != "" && w.bcrypt(meta.pwHash, pw))
  }

  /** GetMeta of a file is the one read that asks for no password. */
  predicate SkipsPassword(r: Ref, goal: Goal) {
    r.kind.FileShare? && goal.MetaOnly?
  }

  /** The list a file or paste read works with; a bucket's comes from its second query. */
  function SingleFile(r: Ref, meta: Meta): seq<BFile> {
    if r.kind.FileShare? then [OwnFile(r.slug, meta)] else []
  }

  /** The search loop of GetFile: the first listed file with the key. */
  function Find(files: seq<BFile>, key: string): Option<BFile> {
    if files == [] then None
    else if files[0].key == key then Some(files[0])
    else Find(files[1..], key)
  }

  /** The expiry and password checks, and what follows when they pass. */
  function Check(w: World, r: Ref, pw: string, goal: Goal, meta: Meta, files: seq<BFile>): Op {
    if Expiry.Lapsed(meta.expires, w.now) then Done(LapsedShare)
    else if !SkipsPassword(r, goal) && !PasswordOk(w, meta, pw) then Done(WrongPassword)
    else
      match goal
      case MetaOnly => Done(Accepted(r, meta, files))
      case Fetch =>
        if meta.oneUse then RdMark(r, pw, meta, files, w.now) else RdSend(r, Fetch, meta, files, [])
      case OneFile(key) =>
        match Find(files, key)
        case None => Done(NotFound)
        case Some(f) => RdSend(r, goal, meta, [f], [])
  }

  /** UPDATE ... SET downloaded_at = unixepoch() WHERE slug = ? AND downloaded_at IS NULL. */
  function Mark(w: World, r: Ref, p: Pass): World
    requires r in w.rows
  {
    w.(rows := w.rows[r := w.rows[r].(mark := Some(Expiry.Unix(w.now)))], marker := w.marker[r := p])
  }

  /** The secret comparison of Delete; a bucket listed before its Create was done is noted. */
  function Authorize(w: World, r: Ref, secret: string, meta: Meta, files: seq<BFile>): (World, Op) {
    if secret == meta.secret then (NoteListing(w, r), Purge(BySecret(secret), [Item(r, meta, files, 0)]))
    else (w, Done(BadSecret))
  }

  function NoteListing(w: World, r: Ref): World {
    if r.kind.BucketShare? && r in w.rows && r.slug !in w.ended then Blame(w, ListedMidCreate(r.slug)) else w
  }

  /** sweepFiles, then sweepBuckets, then sweepPastes. */
  function NextSweep(why: Why): Op
    requires why.BySweep?
  {
    match why.kind
    case FileShare => SwList(why.(kind := BucketShare))
    case BucketShare => SwList(why.(kind := PasteShare))
    case PasteShare => Done(Swept(why.listed, why.keys))
  }

  /** A listing's rows in the order the database returned them. */
  predicate ListsExpired(w: World, kind: Kind, refs: seq<Ref>) {
    && (forall i, j :: 0 <= i < j < |refs| ==> refs[i] != refs[j])
    && (forall i :: 0 <= i < |refs| ==>
          refs[i].kind == kind && refs[i] in w.rows && Expiry.Sweepable(w.rows[refs[i]].meta.expires, w.now))
    && (forall r :: r in w.rows && r.kind == kind && Expiry.Sweepable(w.rows[r].meta.expires, w.now) ==> r in refs)
  }

  function ItemsFor(w: World, refs: seq<Ref>): (items: seq<Item>)
    requires forall i :: 0 <= i < |refs| ==> refs[i] in w.rows
    ensures |items| == |refs|
    ensures forall i :: 0 <= i < |refs| ==>
      items[i] == Item(refs[i], w.rows[refs[i]].meta, SingleFile(refs[i], w.rows[refs[i]].meta), 0)
  {
    seq(|refs|, i requires 0 <= i < |refs| =>
      Item(refs[i], w.rows[refs[i]].meta, SingleFile(refs[i], w.rows[refs[i]].meta), 0))
  }

  /** A sweep has its list for one kind and starts removing. */
  function Proceed(why: Why, items: seq<Item>): Op
    requires why.BySweep?
  {
    var refs := set i | 0 <= i < |items| :: items[i].ref;
    var keys := set i, j | 0 <= i < |items| && 0 <= j < |items[i].files| :: items[i].files[j].key;
    PurgeNext(why.(listed := why.listed + refs, keys := why.keys + keys), items)
  }

  function PurgeNext(why: Why, items: seq<Item>): Op {
    if items != [] then Purge(why, items)
    else match why
      case BySecret(_) => Done(Failed)
      case BySweep(_, _, _, _) => NextSweep(why)
  }

  /** One blob deletion of a removal. */
  function PurgeBlob(w: World, why: Why, items: seq<Item>, c: Choice): (World, Op)
    requires items != [] && items[0].pos < |items[0].files|
  {
    var it := items[0];
    var k := it.files[it.pos].key;
    var on := Purge(why, [it.(pos := it.pos + 1)] + items[1..]);
    if c.Succeed? then (DropBlob(w, k), on)
    else if why.BySecret? && it.ref.kind.FileShare? then (w, Done(Failed))
    else (Blame(w, StoreDeleteFailed(k)), on)
  }

  /** The row deletion that ends the removal of one share. */
  function PurgeRow(w: World, why: Why, items: seq<Item>, c: Choice): (World, Op)
    requires items != []
  {
    var r := items[0].ref;
    if c.Succeed? then
      (DeleteRow(w, r), if why.BySecret? then Done(Removed(r)) else PurgeNext(why, items[1..]))
    else
      (Blame(w, RowDeleteFailed(r)), if why.BySecret? then Done(Failed) else PurgeNext(why, items[1..]))
  }

  /** One step of bucket creation's write loop, or the row insert that follows the loop. */
  function CreateStep(w: World, id: nat, slug: string, meta: Meta, inputs: seq<Input>, stored: seq<Member>, c: Choice)
    : (World, Op)
  {
    var n := |stored|;
    if n < |inputs| then
      match c
      case Draw(key) =>
        if FreshSlug(w, key) then
          (Issue(w, id, key, ForMember(slug, inputs[n].content)).(blobs := w.blobs[key := inputs[n].content]),
           CrWrite(slug, meta, inputs, stored + [Member(key, inputs[n])]))
        else (w, CrWrite(slug, meta, inputs, stored))
      case _ => (w, UndoNext(KeysOf(stored)))
    else if c.Succeed? && Ref(BucketShare, slug) !in w.rows then
      (InsertRow(w, Ref(BucketShare, slug), meta).(plan := w.plan[slug := stored], added := w.added[slug := 0]),
       CrAdd(slug, stored, 0))
    else (w, UndoNext(KeysOf(stored)))
  }

  /** One step of the AddFile loop, or the return after the loop.  The foreign key needs the bucket. */
  function AddStep(w: World, slug: string, stored: seq<Member>, next: nat, c: Choice): (World, Op) {
    if next >= |stored| then
      (w.(ended := w.ended + {slug}, completed := w.completed + {slug}), Done(Stored(Ref(BucketShare, slug))))
    else if c.Succeed? && Ref(BucketShare, slug) in w.rows then
      (InsertFile(w, slug, AsFile(stored[next])).(added := w.added[slug := next + 1]), CrAdd(slug, stored, next + 1))
    else
      (Blame(w, AddFileFailed(slug)).(ended := w.ended + {slug}), Done(Failed))
  }

  /** The mark step of a one-use read: an atomic compare-and-set on the row. */
  function MarkStep(w: World, id: nat, r: Ref, pw: string, meta: Meta, files: seq<BFile>, at: int, c: Choice)
    : (World, Op)
  {
    if c.Fail? then (w, Done(Failed))
    else if r in w.rows && w.rows[r].mark.None? then
      (Mark(w, r, Pass(id, pw, at)),
       if c.FailLate? then Done(Failed) else RdSend(r, Fetch, meta, files, []))
    else (w, if c.FailLate? then Done(Failed) else Done(AlreadyConsumed))
  }

  /** The steps of Upload up to its row, and of paste creation. */
  function UploadStep(w: World, op: Op, c: Choice): (World, Op)
    requires op.UpWrite? || op.UpInsert? || op.PasteInsert?
  {
    match op
    case UpWrite(slug, meta, content) =>
      if c.Succeed? then (w.(blobs := w.blobs[slug := content]), UpInsert(slug, meta)) else (w, Done(Failed))
    case UpInsert(slug, meta) =>
      var r := Ref(FileShare, slug);
      if c.Succeed? && r !in w.rows then (InsertRow(w, r, meta), Done(Stored(r))) else (w, Undo([slug]))
    case PasteInsert(slug, meta) =>
      var r := Ref(PasteShare, slug);
      if c.Succeed? && r !in w.rows then (InsertRow(w, r, meta), Done(Stored(r))) else (w, Done(Failed))
  }

  /** One best-effort deletion of a rollback. */
  function UndoStep(w: World, keys: seq<string>, c: Choice): (World, Op) {
    if keys == [] then (w, Done(Failed))
    else if c.Succeed? then (DropBlob(w, keys[0]), UndoNext(keys[1..]))
    else (Blame(w, StoreDeleteFailed(keys[0])), UndoNext(keys[1..]))
  }

  /** SELECT ... WHERE slug = ?; a bucket needs a second query for its files. */
  function LookupStep(w: World, r: Ref, pw: string, goal: Goal, c: Choice): Op {
    if !c.Succeed? then Done(Failed)
    else if r !in w.rows then Done(NotFound)
    else if r.kind.BucketShare? then RdFiles(r, pw, goal, w.rows[r].meta)
    else RdCheck(r, pw, goal, w.rows[r].meta, SingleFile(r, w.rows[r].meta))
  }

  /** One blob read of a download or of the ZIP loop, or the return after the last. */
  function SendStep(w: World, r: Ref, goal: Goal, meta: Meta, files: seq<BFile>, entries: seq<Entry>, c: Choice): Op {
    var n := |entries|;
    if n >= |files| then Done(Sent(r, goal, meta, files, entries))
    else if c.Succeed? && files[n].key in w.blobs then
      RdSend(r, goal, meta, files, entries + [Entry(files[n].filename, w.blobs[files[n].key])])
    else Done(Broken(r, goal, meta, files, entries))
  }

  function ReadStep(w: World, id: nat, op: Op, c: Choice): (World, Op)
    requires op.RdRow? || op.RdFiles? || op.RdCheck? || op.RdMark? || op.RdSend?
  {
    match op
    case RdRow(r, pw, goal) => (w, LookupStep(w, r, pw, goal, c))
    case RdFiles(r, pw, goal, meta) =>
      (w, if c.Succeed? then RdCheck(r, pw, goal, meta, FilesOf(w.bfiles, r.slug)) else Done(Failed))
    case RdCheck(r, pw, goal, meta, files) => (w, Check(w, r, pw, goal, meta, files))
    case RdMark(r, pw, meta, files, at) => MarkStep(w, id, r, pw, meta, files, at, c)
    case RdSend(r, goal, meta, files, entries) => (w, SendStep(w, r, goal, meta, files, entries, c))
  }

  function DeleteStep(w: World, op: Op, c: Choice): (World, Op)
    requires op.DlRow? || op.DlFiles?
  {
    if !c.Succeed? then (w, Done(Failed))
    else match op
      case DlRow(r, secret) =>
        if r !in w.rows then (w, Done(NotFound))
        else if r.kind.BucketShare? then (w, DlFiles(r, secret, w.rows[r].meta))
        else Authorize(w, r, secret, w.rows[r].meta, SingleFile(r, w.rows[r].meta))
      case DlFiles(r, secret, meta) => Authorize(w, r, secret, meta, FilesOf(w.bfiles, r.slug))
  }

  /** ListExpired's outer query. */
  function SweepListStep(w: World, why: Why, c: Choice): Op
    requires why.BySweep?
  {
    match c
    case Order(refs) =>
      if ListsExpired(w, why.kind, refs) then
        var why' := why.(at := w.now);
        if why.kind.BucketShare? then SwFiles(why', ItemsFor(w, refs), []) else Proceed(why', ItemsFor(w, refs))
      else SwList(why)
    case _ => NextSweep(why)
  }

  /** ListExpired's query for the files of one expired bucket. */
  function SweepFilesStep(w: World, why: Why, todo: seq<Item>, items: seq<Item>, c: Choice): (World, Op)
    requires why.BySweep?
  {
    if todo == [] then (w, Proceed(why, items))
    else if !c.Succeed? then (w, NextSweep(why))
    else
      (NoteListing(w, todo[0].ref),
       SwFiles(why, todo[1..], items + [todo[0].(files := FilesOf(w.bfiles, todo[0].ref.slug))]))
  }

  function PurgeStep(w: World, why: Why, items: seq<Item>, c: Choice): (World, Op) {
    if items == [] then (w, PurgeNext(why, items))
    else if items[0].pos < |items[0].files| then PurgeBlob(w, why, items, c)
    else PurgeRow(w, why, items, c)
  }

  function CreationStep(w: World, id: nat, op: Op, c: Choice): (World, Op)
    requires Creates(op)
  {
    match op
    case Undo(keys) => UndoStep(w, keys, c)
    case CrWrite(slug, meta, inputs, stored) => CreateStep(w, id, slug, meta, inputs, stored, c)
    case CrAdd(slug, stored, next) => AddStep(w, slug, stored, next, c)
    case _ => UploadStep(w, op, c)
  }

  function RemovalStep(w: World, op: Op, c: Choice): (World, Op)
    requires Removes(op)
  {
    match op
    case SwList(why) => (w, if why.BySweep? then SweepListStep(w, why, c) else Done(Failed))
    case SwFiles(why, todo, items) =>
      if why.BySweep? then SweepFilesStep(w, why, todo, items, c) else (w, Done(Failed))
    case Purge(why, items) => PurgeStep(w, why, items, c)
    case _ => DeleteStep(w, op, c)
  }

  /** One step of operation `id`, whose program counter is `op`. */
  function StepOp(w: World, id: nat, op: Op, c: Choice): (World, Op) {
    if op.Done? then (w, op)
    else if Creates(op) then CreationStep(w, id, op, c)
    else if Reads(op) then ReadStep(w, id, op, c)
    else RemovalStep(w, op, c)
  }

  /** One event.  Events that cannot happen leave the state alone. */
  function Step(s: Sys, e: Event): Sys {
    match e
    case Tick(d) => s.(w := s.w.(now := s.w.now + d))
    case Start(id, req) =>
      if id in s.ops || !Possible(s.w, req) then s
      else
        var (w', op') := Begin(s.w, id, req);
        Sys(w', s.ops[id := op'])
    case Advance(id, c) =>
      if id !in s.ops then s
      else
        var (w', op') := StepOp(s.w, id, s.ops[id], c);
        Sys(w', s.ops[id := op'])
  }

  /** A run from s. */
  function Run(s: Sys, es: seq<Event>): Sys {
    if es == [] then s else Step(Run(s, es[..|es| - 1]), es[|es| - 1])
  }
}
