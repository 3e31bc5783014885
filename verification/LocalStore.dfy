/**
 LocalFS under concurrency.  Directory entries name inodes, so an open handle outlives a rename or
 a remove.  Any number of writers, readers and deleters advance one system call at a time; every
 call may fail, and a failed copy may have appended part of its chunk.
 */
module LocalStore {
  import opened Wrappers
  import opened Images
  import opened KeyPaths

  datatype Disk = Disk(names: map<string, nat>, data: map<nat, Bytes>)

  /** Program counters of Write, Read and Delete. */
  datatype Task =
    | Prepare(key: string, chunks: seq<Bytes>)
    | Temp(key: string, chunks: seq<Bytes>)
    | Copy(key: string, chunks: seq<Bytes>, tmp: string, ino: nat, done: nat)
    | Close(key: string, chunks: seq<Bytes>, tmp: string, ino: nat)
    | Rename(key: string, chunks: seq<Bytes>, tmp: string, ino: nat)
    | Cleanup(key: string, chunks: seq<Bytes>, tmp: string, ok: bool)
    | Written(key: string, chunks: seq<Bytes>, ok: bool)
    | Open(key: string)
    | Pull(key: string, ino: nat, seen: Bytes, got: Bytes)
    | Fetched(key: string, seen: Bytes, got: Bytes)
    | Missing(key: string)
    | Erase(key: string)
    | Erased(key: string, ok: bool)
    | Refused

  /** `owner` and `tempOwner` are history: who created an inode, who drew a temp name. */
  datatype State = State(root: string, disk: Disk, tasks: map<nat, Task>, owner: map<nat, nat>,
                         tempOwner: map<string, nat>)

  datatype Call = Write(key: string, chunks: seq<Bytes>) | Read(key: string) | Remove(key: string)

  /** What the operating system answers: success, failure, a drawn temp name, or a partial transfer. */
  datatype Answer = Yes | No | Named(suffix: string, ino: nat) | Partly(n: nat)

  datatype Event = Begin(id: nat, call: Call) | Go(id: nat, answer: Answer)

  function Flat(chunks: seq<Bytes>): Bytes {
    if chunks == [] then [] else Flat(chunks[..|chunks| - 1]) + chunks[|chunks| - 1]
  }

  /** The map from keys to bytes the backend interface promises. */
  function Lookup(s: State, key: string): Option<Bytes>
    requires ValidKey(key)
  {
    var path := KeyPath(s.root, key).value;
    if path in s.disk.names && s.disk.names[path] in s.disk.data then Some(s.disk.data[s.disk.names[path]]) else None
  }

  function Accept(call: Call): Task {
    if !ValidKey(call.key) then Refused
    else match call
      case Write(key, chunks) => Prepare(key, chunks)
      case Read(key) => Open(key)
      case Remove(key) => Erase(key)
  }

  function Append(d: Disk, ino: nat, bytes: Bytes): Disk
    requires ino in d.data
  {
    d.(data := d.data[ino := d.data[ino] + bytes])
  }

  /** The writer's steps: mkdir, create temp, copy chunk by chunk, close, rename, deferred remove. */
  function WriteStep(s: State, id: nat, t: Task, a: Answer): (State, Task)
    requires t.Prepare? || t.Temp? || t.Copy? || t.Close? || t.Rename? || t.Cleanup?
  {
    match t
    case Prepare(key, chunks) => (s, if a.Yes? then Temp(key, chunks) else Written(key, chunks, false))
    case Temp(key, chunks) =>
      (match a
       case Named(suffix, ino) =>
         var tmp := TempPath(Folder(s.root, key), suffix);
         if tmp !in s.disk.names && tmp !in s.tempOwner && ino !in s.disk.data && ino !in s.owner then
           (s.(disk := Disk(s.disk.names[tmp := ino], s.disk.data[ino := []]),
               owner := s.owner[ino := id], tempOwner := s.tempOwner[tmp := id]),
            Copy(key, chunks, tmp, ino, 0))
         else (s, t)
       case _ => (s, Written(key, chunks, false)))
    case Copy(key, chunks, tmp, ino, done) =>
      if done >= |chunks| then (s, Close(key, chunks, tmp, ino))
      else if ino !in s.disk.data then (s, Cleanup(key, chunks, tmp, false))
      else (
        match a
        case Yes => (s.(disk := Append(s.disk, ino, chunks[done])), Copy(key, chunks, tmp, ino, done + 1))
        case Partly(n) =>
          (s.(disk := Append(s.disk, ino, chunks[done][..if n < |chunks[done]| then n else |chunks[done]|])),
           Cleanup(key, chunks, tmp, false))
        case _ => (s, Cleanup(key, chunks, tmp, false)))
    case Close(key, chunks, tmp, ino) =>
      (s, if a.Yes? then Rename(key, chunks, tmp, ino) else Cleanup(key, chunks, tmp, false))
    case Rename(key, chunks, tmp, ino) =>
      if a.Yes? && tmp in s.disk.names && ValidKey(key) then
        (s.(disk := s.disk.(names := s.disk.names[KeyPath(s.root, key).value := s.disk.names[tmp]] - {tmp})),
         Cleanup(key, chunks, tmp, true))
      else (s, Cleanup(key, chunks, tmp, false))
    case Cleanup(key, chunks, tmp, ok) =>
      (if a.Yes? then s.(disk := s.disk.(names := s.disk.names - {tmp})) else s, Written(key, chunks, ok))
  }

  /** os.Open, then reads of the open handle until it is at its end; os.Remove. */
  function ReadStep(s: State, t: Task, a: Answer): (State, Task)
    requires t.Open? || t.Pull? || t.Erase?
  {
    match t
    case Open(key) =>
      if !ValidKey(key) then (s, Refused)
      else if !a.Yes? then (s, Missing(key))
      else
        var path := KeyPath(s.root, key).value;
        if path in s.disk.names && s.disk.names[path] in s.disk.data then
          (s, Pull(key, s.disk.names[path], s.disk.data[s.disk.names[path]], []))
        else (s, Missing(key))
    case Pull(key, ino, seen, got) =>
      if ino !in s.disk.data || |got| > |s.disk.data[ino]| then (s, Missing(key))
      else
        var rest := s.disk.data[ino][|got|..];
        if rest == [] then (s, Fetched(key, seen, got))
        else (
          match a
          case Partly(n) => (s, Pull(key, ino, seen, got + rest[..if n < |rest| then n else |rest|]))
          case _ => (s, Missing(key)))
    case Erase(key) =>
      if !ValidKey(key) then (s, Refused)
      else if a.Yes? then (s.(disk := s.disk.(names := s.disk.names - {KeyPath(s.root, key).value})), Erased(key, true))
      else (s, Erased(key, false))
  }

  function TaskStep(s: State, id: nat, t: Task, a: Answer): (State, Task) {
    if t.Prepare? || t.Temp? || t.Copy? || t.Close? || t.Rename? || t.Cleanup? then WriteStep(s, id, t, a)
    else if t.Open? || t.Pull? || t.Erase? then ReadStep(s, t, a)
    else (s, t)
  }

  function Step(s: State, e: Event): State {
    match e
    case Begin(id, call) => if id in s.tasks then s else s.(tasks := s.tasks[id := Accept(call)])
    case Go(id, a) =>
      if id !in s.tasks then s
      else
        var (s', t') := TaskStep(s, id, s.tasks[id], a);
        s'.(tasks := s.tasks[id := t'])
  }

  function Run(s: State, es: seq<Event>): State {
    if es == [] then s else Step(Run(s, es[..|es| - 1]), es[|es| - 1])
  }

  function Initial(root: string): State {
    State(root, Disk(map[], map[]), map[], map[], map[])
  }

  /* ---------- invariant ---------- */

  /** A temp file that belongs to a writer still before its rename. */
  ghost predicate OwnsTemp(s: State, id: nat, key: string, tmp: string, ino: nat) {
    && ValidKey(key)
    && tmp in s.tempOwner && s.tempOwner[tmp] == id
    && (exists suffix :: tmp == TempPath(Folder(s.root, key), suffix))
    && tmp in s.disk.names && s.disk.names[tmp] == ino
    && ino in s.disk.data && ino in s.owner && s.owner[ino] == id
  }

  ghost predicate TaskInv(s: State, id: nat, t: Task) {
    match t
    case Prepare(key, _) => ValidKey(key)
    case Temp(key, _) => ValidKey(key)
    case Copy(key, chunks, tmp, ino, done) =>
      OwnsTemp(s, id, key, tmp, ino) && done <= |chunks| && s.disk.data[ino] == Flat(chunks[..done])
    case Close(key, chunks, tmp, ino) => OwnsTemp(s, id, key, tmp, ino) && s.disk.data[ino] == Flat(chunks)
    case Rename(key, chunks, tmp, ino) => OwnsTemp(s, id, key, tmp, ino) && s.disk.data[ino] == Flat(chunks)
    case Cleanup(key, _, tmp, _) =>
      ValidKey(key) && tmp in s.tempOwner && s.tempOwner[tmp] == id &&
        exists suffix :: tmp == TempPath(Folder(s.root, key), suffix)
    case Open(key) => ValidKey(key)
    case Erase(key) => ValidKey(key)
    case Pull(key, ino, seen, got) =>
      Published(s, ino) && s.tasks[s.owner[ino]].key == key && s.disk.data[ino] == seen && got <= seen
    case Fetched(key, seen, got) => got == seen && CompleteWrite(s, key, got)
    case _ => true
  }

  /** The writer of an inode has renamed it into place; nobody writes to it any more. */
  ghost predicate Published(s: State, ino: nat) {
    && ino in s.disk.data && ino in s.owner && s.owner[ino] in s.tasks
    && Finished(s.tasks[s.owner[ino]])
    && s.disk.data[ino] == Flat(s.tasks[s.owner[ino]].chunks)
  }

  /** Some Write of the key has renamed exactly these bytes into place. */
  ghost predicate CompleteWrite(s: State, key: string, bytes: Bytes) {
    exists id :: id in s.tasks && Finished(s.tasks[id]) && s.tasks[id].key == key && Flat(s.tasks[id].chunks) == bytes
  }

  predicate Finished(t: Task) {
    (t.Cleanup? || t.Written?) && t.ok
  }

  /** A key's directory entry names an inode published by a successful Write of that very key. */
  ghost predicate NamesPublished(s: State, key: string)
    requires ValidKey(key)
  {
    var path := KeyPath(s.root, key).value;
    path in s.disk.names ==>
      Published(s, s.disk.names[path]) && s.tasks[s.owner[s.disk.names[path]]].key == key
  }

  ghost predicate DiskInv(s: State) {
    && (forall id :: id in s.tasks ==> TaskInv(s, id, s.tasks[id]))
    && (forall key {:trigger ValidKey(key)} :: ValidKey(key) ==> NamesPublished(s, key))
    && OwnersOk(s)
  }

  ghost predicate OwnersOk(s: State) {
    && (forall ino :: ino in s.owner ==> s.owner[ino] in s.tasks && ino in s.disk.data)
    && (forall tmp :: tmp in s.tempOwner ==> s.tempOwner[tmp] in s.tasks)
  }

  /* ---------- frames ---------- */

  /** What a step of task a leaves alone for everybody else. */
  ghost predicate Leaves(s: State, s': State, a: nat)
    requires a in s.tasks
  {
    && s'.root == s.root
    && (forall ino :: ino in s.owner ==> ino in s'.owner && s'.owner[ino] == s.owner[ino])
    && (forall tmp :: tmp in s.tempOwner ==> tmp in s'.tempOwner && s'.tempOwner[tmp] == s.tempOwner[tmp])
    && (forall ino :: ino in s.disk.data ==> ino in s'.disk.data)
    && (forall ino :: ino in s.disk.data && ino in s.owner && (s.owner[ino] != a || Finished(s.tasks[a])) ==>
          s'.disk.data[ino] == s.disk.data[ino])
    && (forall tmp :: tmp in s.disk.names && tmp in s.tempOwner && s.tempOwner[tmp] != a ==>
          tmp in s'.disk.names && s'.disk.names[tmp] == s.disk.names[tmp])
    && (forall id :: id in s.tasks && id != a ==> id in s'.tasks && s'.tasks[id] == s.tasks[id])
    && a in s'.tasks
    && (Finished(s.tasks[a]) ==> Finished(s'.tasks[a]) && SameWrite(s.tasks[a], s'.tasks[a]))
  }

  predicate SameWrite(t: Task, t': Task)
    requires Finished(t) && Finished(t')
  {
    t'.key == t.key && t'.chunks == t.chunks
  }

  function After(s: State, id: nat, next: (State, Task)): State {
    next.0.(tasks := s.tasks[id := next.1])
  }

  lemma PublishedStays(s: State, s': State, a: nat, ino: nat)
    requires a in s.tasks && Leaves(s, s', a) && Published(s, ino)
    ensures Published(s', ino) && s'.disk.data[ino] == s.disk.data[ino]
    ensures s'.tasks[s'.owner[ino]].key == s.tasks[s.owner[ino]].key
  {
  }

  lemma TaskStable(s: State, s': State, a: nat, id: nat, t: Task)
    requires a in s.tasks && Leaves(s, s', a) && id != a && TaskInv(s, id, t)
    ensures TaskInv(s', id, t)
  {
    if t.Pull? { PublishedStays(s, s', a, t.ino); }
    if t.Fetched? { CompleteWriteStays(s, s', a, t.key, t.got); }
  }

  lemma CompleteWriteStays(s: State, s': State, a: nat, key: string, bytes: Bytes)
    requires a in s.tasks && Leaves(s, s', a) && CompleteWrite(s, key, bytes)
    ensures CompleteWrite(s', key, bytes)
  {
    var id :| id in s.tasks && Finished(s.tasks[id]) && s.tasks[id].key == key && Flat(s.tasks[id].chunks) == bytes;
    assert id in s'.tasks && Finished(s'.tasks[id]);
  }

  /** A temp name is not a key's path, whatever keys are involved. */
  lemma TempIsNoKey(s: State, tmp: string, k1: string, k2: string)
    requires ValidKey(k1) && ValidKey(k2) && exists suffix :: tmp == TempPath(Folder(s.root, k1), suffix)
    ensures tmp != KeyPath(s.root, k2).value
  {
    var suffix :| tmp == TempPath(Folder(s.root, k1), suffix);
    NoTempIsAKey(s.root, k1, k2, suffix);
  }

  /** Temp names on record are made by CreateTemp in some key's folder. */
  ghost predicate TempsOk(s: State) {
    forall tmp {:trigger tmp in s.tempOwner} :: tmp in s.tempOwner ==>
      forall key {:trigger ValidKey(key)} :: ValidKey(key) ==> tmp != KeyPath(s.root, key).value
  }

  /* ---------- steps that leave the directory alone ---------- */

  lemma CopyAppends(chunks: seq<Bytes>, done: nat)
    requires done < |chunks|
    ensures Flat(chunks[..done + 1]) == Flat(chunks[..done]) + chunks[done]
  {
    assert chunks[..done + 1][..done] == chunks[..done];
  }

  lemma QuietLeaves(s: State, id: nat, t': Task)
    requires id in s.tasks && (Finished(s.tasks[id]) ==> Finished(t') && SameWrite(s.tasks[id], t'))
    ensures Leaves(s, After(s, id, (s, t')), id)
  {
  }

  lemma AppendLeaves(s: State, id: nat, ino: nat, bytes: Bytes, t': Task)
    requires id in s.tasks && !Finished(s.tasks[id]) && ino in s.disk.data && ino in s.owner && s.owner[ino] == id
    ensures Leaves(s, After(s, id, (s.(disk := Append(s.disk, ino, bytes)), t')), id)
  {
  }

  lemma TempLeaves(s: State, id: nat, tmp: string, ino: nat, t': Task)
    requires id in s.tasks && !Finished(s.tasks[id])
    requires tmp !in s.disk.names && tmp !in s.tempOwner && ino !in s.disk.data && ino !in s.owner
    ensures Leaves(s, After(s, id, (s.(disk := Disk(s.disk.names[tmp := ino], s.disk.data[ino := []]),
                                       owner := s.owner[ino := id], tempOwner := s.tempOwner[tmp := id]), t')), id)
  {
  }

  lemma RenameLeaves(s: State, id: nat, path: string, tmp: string, t': Task)
    requires id in s.tasks && !Finished(s.tasks[id]) && tmp in s.disk.names
    requires path !in s.tempOwner && tmp in s.tempOwner && s.tempOwner[tmp] == id
    ensures var names := s.disk.names[path := s.disk.names[tmp]] - {tmp};
            Leaves(s, After(s, id, (s.(disk := s.disk.(names := names)), t')), id)
  {
  }

  lemma UnlinkLeaves(s: State, id: nat, path: string, t': Task)
    requires id in s.tasks && (Finished(s.tasks[id]) ==> Finished(t') && SameWrite(s.tasks[id], t'))
    requires path in s.tempOwner ==> s.tempOwner[path] == id
    ensures Leaves(s, After(s, id, (s.(disk := s.disk.(names := s.disk.names - {path})), t')), id)
  {
  }

  lemma WriteStepLeaves(s: State, id: nat, a: Answer)
    requires DiskInv(s) && TempsOk(s) && id in s.tasks
    requires var t := s.tasks[id]; t.Prepare? || t.Temp? || t.Copy? || t.Close? || t.Rename? || t.Cleanup?
    ensures Leaves(s, After(s, id, WriteStep(s, id, s.tasks[id], a)), id)
  {
    var t := s.tasks[id];
    var next := WriteStep(s, id, t, a);
    assert TaskInv(s, id, t);
    match t
    case Temp(key, chunks) =>
      if next.1.Copy? { TempLeaves(s, id, next.1.tmp, next.1.ino, next.1); } else { QuietLeaves(s, id, next.1); }
    case Copy(key, chunks, tmp, ino, done) =>
      if done < |chunks| && a.Yes? {
        AppendLeaves(s, id, ino, chunks[done], next.1);
      } else if done < |chunks| && a.Partly? {
        AppendLeaves(s, id, ino, chunks[done][..if a.n < |chunks[done]| then a.n else |chunks[done]|], next.1);
      } else {
        QuietLeaves(s, id, next.1);
      }
    case Rename(key, chunks, tmp, ino) =>
      if a.Yes? {
        RenameLeaves(s, id, KeyPath(s.root, key).value, tmp, next.1);
      } else {
        QuietLeaves(s, id, next.1);
      }
    case Cleanup(key, chunks, tmp, ok) =>
      if a.Yes? { UnlinkLeaves(s, id, tmp, next.1); } else { QuietLeaves(s, id, next.1); }
    case _ => QuietLeaves(s, id, next.1);
  }

  lemma StepLeaves(s: State, id: nat, a: Answer)
    requires DiskInv(s) && TempsOk(s) && id in s.tasks
    ensures Leaves(s, After(s, id, TaskStep(s, id, s.tasks[id], a)), id)
  {
    var t := s.tasks[id];
    var next := TaskStep(s, id, t, a);
    assert TaskInv(s, id, t);
    if t.Prepare? || t.Temp? || t.Copy? || t.Close? || t.Rename? || t.Cleanup? {
      WriteStepLeaves(s, id, a);
    } else if t.Erase? && a.Yes? {
      UnlinkLeaves(s, id, KeyPath(s.root, t.key).value, next.1);
    } else {
      QuietLeaves(s, id, next.1);
    }
  }

  /* ---------- what the moving task knows afterwards ---------- */

  lemma CopierKnows(s: State, id: nat, a: Answer)
    requires id in s.tasks && s.tasks[id].Copy? && TaskInv(s, id, s.tasks[id])
    ensures var next := WriteStep(s, id, s.tasks[id], a); TaskInv(After(s, id, next), id, next.1)
  {
    var t := s.tasks[id];
    if t.done < |t.chunks| { CopyAppends(t.chunks, t.done); } else { assert t.chunks[..t.done] == t.chunks; }
  }

  lemma WriterKnows(s: State, id: nat, a: Answer)
    requires id in s.tasks && TaskInv(s, id, s.tasks[id])
    requires var t := s.tasks[id]; t.Prepare? || t.Temp? || t.Copy? || t.Close? || t.Rename? || t.Cleanup?
    ensures var next := WriteStep(s, id, s.tasks[id], a); TaskInv(After(s, id, next), id, next.1)
  {
    var t := s.tasks[id];
    if t.Copy? {
      CopierKnows(s, id, a);
    } else if t.Temp? && a.Named? {
      assert TempPath(Folder(s.root, t.key), a.suffix) == TempPath(Folder(s.root, t.key), a.suffix);
    }
  }

  lemma ReaderKnows(s: State, id: nat, a: Answer)
    requires DiskInv(s) && id in s.tasks && (s.tasks[id].Open? || s.tasks[id].Pull? || s.tasks[id].Erase?)
    ensures var next := ReadStep(s, s.tasks[id], a); TaskInv(After(s, id, next), id, next.1)
  {
    var t := s.tasks[id];
    assert TaskInv(s, id, t);
    var next := ReadStep(s, t, a);
    var s' := After(s, id, next);
    if t.Open? && next.1.Pull? {
      assert NamesPublished(s, t.key);
      QuietLeaves(s, id, next.1);
      PublishedStays(s, s', id, next.1.ino);
    } else if t.Pull? && next.1.Pull? {
      QuietLeaves(s, id, next.1);
      PublishedStays(s, s', id, t.ino);
    } else if t.Pull? && next.1.Fetched? {
      QuietLeaves(s, id, next.1);
      PublishedStays(s, s', id, t.ino);
      assert s'.owner[t.ino] in s'.tasks;
    }
  }

  /* ---------- the directory ---------- */

  /**
   Refinement.  Seen through Lookup, every step of every task either changes nothing or is one atomic
   operation of a map: the rename of a writer puts its whole content under its key, the remove of a
   deleter drops its key.  Failed writes never reach their rename, so they change no key.
   */
  lemma StepRefinesMap(s: State, e: Event, key: string)
    requires DiskInv(s) && TempsOk(s) && ValidKey(key)
    ensures Lookup(Step(s, e), key) ==
              if e.Go? && e.id in s.tasks && s.tasks[e.id].Rename? && e.answer.Yes? && s.tasks[e.id].key == key
              then Some(Flat(s.tasks[e.id].chunks))
              else if e.Go? && e.id in s.tasks && s.tasks[e.id].Erase? && e.answer.Yes? && s.tasks[e.id].key == key
              then None
              else Lookup(s, key)
  {
    if e.Go? && e.id in s.tasks {
      var t := s.tasks[e.id];
      if t.Rename? || t.Erase? {
        DirectoryStepRefines(s, e.id, e.answer, key);
      } else {
        OtherStepKeepsKeys(s, e.id, e.answer, key);
      }
    }
  }

  lemma RenameRefines(s: State, id: nat, a: Answer, key: string)
    requires DiskInv(s) && TempsOk(s) && ValidKey(key) && id in s.tasks && s.tasks[id].Rename?
    ensures Lookup(After(s, id, TaskStep(s, id, s.tasks[id], a)), key) ==
              if a.Yes? && s.tasks[id].key == key then Some(Flat(s.tasks[id].chunks)) else Lookup(s, key)
  {
    var t := s.tasks[id];
    assert TaskInv(s, id, t);
    if t.key != key && KeyPath(s.root, t.key) == KeyPath(s.root, key) { KeyPathIsInjective(s.root, t.key, key); }
  }

  lemma EraseRefines(s: State, id: nat, a: Answer, key: string)
    requires ValidKey(key) && id in s.tasks && s.tasks[id].Erase? && TaskInv(s, id, s.tasks[id])
    ensures Lookup(After(s, id, TaskStep(s, id, s.tasks[id], a)), key) ==
              if a.Yes? && s.tasks[id].key == key then None else Lookup(s, key)
  {
    var t := s.tasks[id];
    if t.key != key && KeyPath(s.root, t.key) == KeyPath(s.root, key) { KeyPathIsInjective(s.root, t.key, key); }
  }

  lemma DirectoryStepRefines(s: State, id: nat, a: Answer, key: string)
    requires DiskInv(s) && TempsOk(s) && ValidKey(key) && id in s.tasks && (s.tasks[id].Rename? || s.tasks[id].Erase?)
    ensures Lookup(After(s, id, TaskStep(s, id, s.tasks[id], a)), key) ==
              if a.Yes? && s.tasks[id].key == key
              then (if s.tasks[id].Rename? then Some(Flat(s.tasks[id].chunks)) else None)
              else Lookup(s, key)
  {
    if s.tasks[id].Rename? { RenameRefines(s, id, a, key); } else { EraseRefines(s, id, a, key); }
  }

  lemma OtherStepKeepsEntry(s: State, id: nat, a: Answer, key: string)
    requires TempsOk(s) && ValidKey(key) && id in s.tasks && TaskInv(s, id, s.tasks[id])
    requires !s.tasks[id].Rename? && !s.tasks[id].Erase?
    ensures var path := KeyPath(s.root, key).value; var names := TaskStep(s, id, s.tasks[id], a).0.disk.names;
            (path in names <==> path in s.disk.names) && (path in names ==> names[path] == s.disk.names[path])
  {
    var t := s.tasks[id];
    if t.Temp? && a.Named? { NoTempIsAKey(s.root, t.key, key, a.suffix); }
  }

  lemma OtherStepKeepsKeys(s: State, id: nat, a: Answer, key: string)
    requires DiskInv(s) && TempsOk(s) && ValidKey(key) && id in s.tasks && !s.tasks[id].Rename? && !s.tasks[id].Erase?
    ensures Lookup(After(s, id, TaskStep(s, id, s.tasks[id], a)), key) == Lookup(s, key)
  {
    var s' := After(s, id, TaskStep(s, id, s.tasks[id], a));
    assert NamesPublished(s, key);
    StepLeaves(s, id, a);
    OtherStepKeepsEntry(s, id, a, key);
    var path := KeyPath(s.root, key).value;
    if path in s.disk.names { PublishedStays(s, s', id, s.disk.names[path]); }
  }

  lemma OnlyTempsDraw(s: State, id: nat, t: Task, a: Answer)
    requires !t.Temp?
    ensures TaskStep(s, id, t, a).0.tempOwner == s.tempOwner && TaskStep(s, id, t, a).0.root == s.root
  {
  }

  lemma TempsStay(s: State, e: Event)
    requires DiskInv(s) && TempsOk(s)
    ensures TempsOk(Step(s, e))
  {
    if e.Go? && e.id in s.tasks {
      var t := s.tasks[e.id];
      if t.Temp? {
        assert TaskInv(s, e.id, t);
        if e.answer.Named? { DrawnTempIsNoKey(s, t.key, e.answer.suffix); }
      } else {
        OnlyTempsDraw(s, e.id, t, e.answer);
      }
    }
  }

  lemma DrawnTempIsNoKey(s: State, k: string, suffix: string)
    requires ValidKey(k)
    ensures forall key {:trigger ValidKey(key)} :: ValidKey(key) ==>
              TempPath(Folder(s.root, k), suffix) != KeyPath(s.root, key).value
  {
    forall key | ValidKey(key) ensures TempPath(Folder(s.root, k), suffix) != KeyPath(s.root, key).value {
      NoTempIsAKey(s.root, k, key, suffix);
    }
  }

  /** After any step, a key's entry still names what a successful Write of that key left there. */
  lemma NamesStay(s: State, id: nat, a: Answer, key: string)
    requires DiskInv(s) && TempsOk(s) && id in s.tasks && ValidKey(key)
    ensures NamesPublished(After(s, id, TaskStep(s, id, s.tasks[id], a)), key)
  {
    var t := s.tasks[id];
    var next := TaskStep(s, id, t, a);
    var s' := After(s, id, next);
    var path := KeyPath(s.root, key).value;
    assert TaskInv(s, id, t);
    assert NamesPublished(s, key);
    StepLeaves(s, id, a);
    if path in s.disk.names && path in s'.disk.names && s'.disk.names[path] == s.disk.names[path] {
      PublishedStays(s, s', id, s.disk.names[path]);
    } else if path in s'.disk.names {
      NewNameIsPublished(s, id, a, key);
    }
  }

  /** The only step that changes a key's entry is the rename of a writer of that key. */
  lemma NewNameIsPublished(s: State, id: nat, a: Answer, key: string)
    requires DiskInv(s) && TempsOk(s) && id in s.tasks && ValidKey(key)
    requires var path := KeyPath(s.root, key).value; var names' := TaskStep(s, id, s.tasks[id], a).0.disk.names;
             path in names' && (path !in s.disk.names || names'[path] != s.disk.names[path])
    ensures s.tasks[id].Rename? && s.tasks[id].key == key
    ensures NamesPublished(After(s, id, TaskStep(s, id, s.tasks[id], a)), key)
  {
    var t := s.tasks[id];
    assert TaskInv(s, id, t);
    if t.Rename? {
      RenamePublishes(s, id, a, key);
    } else if !t.Erase? {
      OtherStepKeepsEntry(s, id, a, key);
    }
  }

  lemma RenamePublishes(s: State, id: nat, a: Answer, key: string)
    requires id in s.tasks && ValidKey(key) && s.tasks[id].Rename? && TaskInv(s, id, s.tasks[id])
    requires var path := KeyPath(s.root, key).value; var names' := TaskStep(s, id, s.tasks[id], a).0.disk.names;
             path in names' && (path !in s.disk.names || names'[path] != s.disk.names[path])
    ensures s.tasks[id].key == key
    ensures NamesPublished(After(s, id, TaskStep(s, id, s.tasks[id], a)), key)
  {
    var t := s.tasks[id];
    if t.key != key && KeyPath(s.root, t.key) == KeyPath(s.root, key) { KeyPathIsInjective(s.root, t.key, key); }
  }

  /* ---------- every run ---------- */

  lemma GoInv(s: State, id: nat, a: Answer)
    requires DiskInv(s) && TempsOk(s) && id in s.tasks
    ensures DiskInv(After(s, id, TaskStep(s, id, s.tasks[id], a)))
  {
    var next := TaskStep(s, id, s.tasks[id], a);
    var s' := After(s, id, next);
    StepLeaves(s, id, a);
    forall i | i in s'.tasks ensures TaskInv(s', i, s'.tasks[i]) {
      if i == id { MoverKnows(s, id, a); } else { TaskStable(s, s', id, i, s.tasks[i]); }
    }
    forall key | ValidKey(key) ensures NamesPublished(s', key) { NamesStay(s, id, a, key); }
    OwnersStay(s, id, a);
  }

  lemma OwnersStay(s: State, id: nat, a: Answer)
    requires OwnersOk(s) && id in s.tasks
    ensures OwnersOk(After(s, id, TaskStep(s, id, s.tasks[id], a)))
  {
  }

  lemma MoverKnows(s: State, id: nat, a: Answer)
    requires DiskInv(s) && TempsOk(s) && id in s.tasks
    ensures var next := TaskStep(s, id, s.tasks[id], a); TaskInv(After(s, id, next), id, next.1)
  {
    var t := s.tasks[id];
    assert TaskInv(s, id, t);
    if t.Prepare? || t.Temp? || t.Copy? || t.Close? || t.Rename? || t.Cleanup? {
      WriterKnows(s, id, a);
    } else if t.Open? || t.Pull? || t.Erase? {
      ReaderKnows(s, id, a);
    } else {
      assert After(s, id, (s, t)) == s;
    }
  }

  lemma BeginInv(s: State, id: nat, call: Call)
    requires DiskInv(s) && id !in s.tasks
    ensures DiskInv(s.(tasks := s.tasks[id := Accept(call)]))
  {
    var s' := s.(tasks := s.tasks[id := Accept(call)]);
    forall i | i in s.tasks ensures TaskInv(s', i, s.tasks[i]) { TaskBeforeBegin(s, s', i, id); }
    forall key | ValidKey(key) ensures NamesPublished(s', key) { assert NamesPublished(s, key); }
  }

  lemma TaskBeforeBegin(s: State, s': State, i: nat, id: nat)
    requires DiskInv(s) && i in s.tasks && id !in s.tasks && id in s'.tasks &&
             s' == s.(tasks := s.tasks[id := s'.tasks[id]])
    ensures TaskInv(s', i, s.tasks[i])
  {
    var t := s.tasks[i];
    assert TaskInv(s, i, t);
    if t.Fetched? {
      var w :| w in s.tasks && Finished(s.tasks[w]) && s.tasks[w].key == t.key && Flat(s.tasks[w].chunks) == t.got;
      assert w in s'.tasks;
    }
  }

  lemma {:induction false} RunInv(root: string, es: seq<Event>)
    ensures DiskInv(Run(Initial(root), es)) && TempsOk(Run(Initial(root), es)) && Run(Initial(root), es).root == root
  {
    if es != [] {
      var s, e := Run(Initial(root), es[..|es| - 1]), es[|es| - 1];
      RunInv(root, es[..|es| - 1]);
      TempsStay(s, e);
      if e.Begin? && e.id !in s.tasks {
        BeginInv(s, e.id, e.call);
      } else if e.Go? && e.id in s.tasks {
        GoInv(s, e.id, e.answer);
        StepLeaves(s, e.id, e.answer);
      }
    }
  }

  /** A Write comes to count as successful only in its rename, which puts its whole content under the key. */
  lemma SuccessMeansRenamed(s: State, id: nat, a: Answer)
    requires DiskInv(s) && id in s.tasks && !Finished(s.tasks[id])
    requires Finished(Step(s, Go(id, a)).tasks[id])
    ensures s.tasks[id].Rename? && a.Yes? && ValidKey(s.tasks[id].key)
    ensures Lookup(Step(s, Go(id, a)), s.tasks[id].key) == Some(Flat(s.tasks[id].chunks))
  {
    assert TaskInv(s, id, s.tasks[id]);
    assert NamesPublished(s, s.tasks[id].key);
    var t := s.tasks[id];
    TempIsNoKey(s, t.tmp, t.key, t.key);
  }
}
