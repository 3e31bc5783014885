/**
 LocalFS over whole runs: the map a key shows is the history of renames and removes, a Read returns
 one moment of it, and a failed Write leaves no mark on it.
 */
module LocalRuns {
  import opened Wrappers
  import opened Images
  import opened KeyPaths
  import opened LocalStore

  /** The event is a writer's successful rename onto the key. */
  predicate PutsNow(s: State, e: Event, key: string) {
    e.Go? && e.id in s.tasks && s.tasks[e.id].Rename? && e.answer.Yes? && s.tasks[e.id].key == key
  }

  /** The event is a successful remove of the key. */
  predicate DropsNow(s: State, e: Event, key: string) {
    e.Go? && e.id in s.tasks && s.tasks[e.id].Erase? && e.answer.Yes? && s.tasks[e.id].key == key
  }

  function At(root: string, es: seq<Event>, m: nat): State
    requires m <= |es|
  {
    Run(Initial(root), es[..m])
  }

  /** Event m puts exactly these bytes under the key. */
  ghost predicate PutsAt(root: string, es: seq<Event>, m: nat, key: string, bytes: Bytes)
    requires m < |es|
  {
    PutsNow(At(root, es, m), es[m], key) && Flat(At(root, es, m).tasks[es[m].id].chunks) == bytes
  }

  ghost predicate ChangesAt(root: string, es: seq<Event>, m: nat, key: string)
    requires m < |es|
  {
    PutsNow(At(root, es, m), es[m], key) || DropsNow(At(root, es, m), es[m], key)
  }

  /** Event m puts these bytes under the key, and no later event replaces or removes them. */
  ghost predicate PutLast(root: string, es: seq<Event>, m: nat, key: string, bytes: Bytes)
    requires m < |es|
  {
    PutsAt(root, es, m, key, bytes) && forall n :: m < n < |es| ==> !ChangesAt(root, es, n, key)
  }

  lemma PrefixAt(root: string, es: seq<Event>, n: nat)
    requires n <= |es|
    ensures forall m :: 0 <= m <= n ==> At(root, es[..n], m) == At(root, es, m)
  {
    forall m | 0 <= m <= n ensures es[..n][..m] == es[..m] { }
  }

  ghost predicate HasLastPut(root: string, es: seq<Event>, key: string, bytes: Bytes) {
    exists m :: 0 <= m < |es| && PutLast(root, es, m, key, bytes)
  }

  lemma PutLastStays(root: string, es: seq<Event>, m: nat, key: string, bytes: Bytes)
    requires m < |es| - 1 && !ChangesAt(root, es, |es| - 1, key)
    ensures PutLast(root, es[..|es| - 1], m, key, bytes) <==> PutLast(root, es, m, key, bytes)
  {
    var n := |es| - 1;
    PrefixAt(root, es, n);
    assert forall p :: 0 <= p < n ==> (ChangesAt(root, es[..n], p, key) <==> ChangesAt(root, es, p, key));
  }

  /** One more event: the last change is this one, or the old one if this changes nothing. */
  lemma PutLastExtends(root: string, es: seq<Event>, key: string, bytes: Bytes)
    requires es != []
    ensures var n := |es| - 1;
            HasLastPut(root, es, key, bytes) <==>
              PutsAt(root, es, n, key, bytes) ||
              (!ChangesAt(root, es, n, key) && HasLastPut(root, es[..n], key, bytes))
  {
    var n := |es| - 1;
    if PutsAt(root, es, n, key, bytes) {
      assert PutLast(root, es, n, key, bytes);
    } else if HasLastPut(root, es, key, bytes) {
      var m :| 0 <= m < |es| && PutLast(root, es, m, key, bytes);
      assert m < n && !ChangesAt(root, es, n, key);
      PutLastStays(root, es, m, key, bytes);
    } else if !ChangesAt(root, es, n, key) && HasLastPut(root, es[..n], key, bytes) {
      var m :| 0 <= m < n && PutLast(root, es[..n], m, key, bytes);
      PutLastStays(root, es, m, key, bytes);
    }
  }

  lemma LookupMoves(root: string, es: seq<Event>, key: string, bytes: Bytes)
    requires es != [] && ValidKey(key)
    ensures var n := |es| - 1;
            Lookup(Run(Initial(root), es), key) == Some(bytes) <==>
              PutsAt(root, es, n, key, bytes) ||
              (!ChangesAt(root, es, n, key) && Lookup(Run(Initial(root), es[..n]), key) == Some(bytes))
  {
    var n := |es| - 1;
    RunInv(root, es[..n]);
    StepRefinesMap(Run(Initial(root), es[..n]), es[n], key);
  }

  /**
   Exactly the last write.  In every run a key holds given bytes if and only if some Write of that key
   renamed exactly these bytes, its whole content, into place and no rename or remove of the key has
   followed.
   */
  lemma {:induction false} KeysHoldCompleteWrites(root: string, es: seq<Event>, key: string, bytes: Bytes)
    requires ValidKey(key)
    ensures Lookup(Run(Initial(root), es), key) == Some(bytes) <==> HasLastPut(root, es, key, bytes)
  {
    if es != [] {
      KeysHoldCompleteWrites(root, es[..|es| - 1], key, bytes);
      LookupMoves(root, es, key, bytes);
      PutLastExtends(root, es, key, bytes);
    }
  }

  /* ---------- reads ---------- */

  /** In event m task id opens the key, and the key holds these bytes at that moment. */
  ghost predicate OpensAt(root: string, es: seq<Event>, m: nat, id: nat, key: string, bytes: Bytes)
    requires m < |es|
  {
    var s := At(root, es, m);
    && es[m] == Go(id, Yes) && id in s.tasks && s.tasks[id] == Open(key) && ValidKey(key)
    && Lookup(s, key) == Some(bytes)
  }

  predicate Reader(t: Task) {
    t.Pull? || t.Fetched?
  }

  lemma WritersDoNotRead(s: State, id: nat, t: Task, a: Answer)
    requires t.Prepare? || t.Temp? || t.Copy? || t.Close? || t.Rename? || t.Cleanup?
    ensures !Reader(WriteStep(s, id, t, a).1)
  {
  }

  lemma ReadStepOpens(s: State, t: Task, a: Answer)
    requires (t.Open? || t.Pull? || t.Erase?) && Reader(ReadStep(s, t, a).1)
    ensures var t' := ReadStep(s, t, a).1;
            || (t.Pull? && t.key == t'.key && t.seen == t'.seen)
            || (a.Yes? && t == Open(t'.key) && ValidKey(t'.key) && Lookup(s, t'.key) == Some(t'.seen))
  {
  }

  lemma ReaderOpens(s: State, e: Event, id: nat)
    requires id in Step(s, e).tasks && Reader(Step(s, e).tasks[id])
    ensures id in s.tasks
    ensures var t := s.tasks[id]; var t' := Step(s, e).tasks[id];
            || (Reader(t) && t.key == t'.key && t.seen == t'.seen)
            || (e == Go(id, Yes) && t == Open(t'.key) && ValidKey(t'.key) && Lookup(s, t'.key) == Some(t'.seen))
  {
    if e.Go? && e.id == id && id in s.tasks {
      var t := s.tasks[id];
      if t.Open? || t.Pull? || t.Erase? {
        ReadStepOpens(s, t, e.answer);
      } else if t.Prepare? || t.Temp? || t.Copy? || t.Close? || t.Rename? || t.Cleanup? {
        WritersDoNotRead(s, id, t, e.answer);
      }
    }
  }

  lemma {:induction false} ReaderOpened(root: string, es: seq<Event>, id: nat)
    requires var s := Run(Initial(root), es); id in s.tasks && Reader(s.tasks[id])
    ensures var t := Run(Initial(root), es).tasks[id];
            exists m :: 0 <= m < |es| && OpensAt(root, es, m, id, t.key, t.seen)
  {
    if es != [] {
      var n := |es| - 1;
      var s := Run(Initial(root), es[..n]);
      var t := Run(Initial(root), es).tasks[id];
      RunInv(root, es[..n]);
      ReaderOpens(s, es[n], id);
      if s.tasks[id].Open? {
        assert OpensAt(root, es, n, id, t.key, t.seen);
      } else {
        ReaderOpened(root, es[..n], id);
        var m :| 0 <= m < n && OpensAt(root, es[..n], m, id, t.key, t.seen);
        PrefixAt(root, es, n);
        assert OpensAt(root, es, m, id, t.key, t.seen);
      }
    }
  }

  /**
   Snapshot reads.  A Read that reaches the end of the file returns exactly what its key held at the
   moment it opened it: some Write's whole content, put there before and neither replaced nor removed
   up to that moment, however many writers and deleters were active during the Read.
   */
  lemma ReadsAreCompleteSnapshots(root: string, es: seq<Event>, id: nat)
    requires id in Run(Initial(root), es).tasks && Run(Initial(root), es).tasks[id].Fetched?
    ensures var t := Run(Initial(root), es).tasks[id];
            exists m, p :: 0 <= p < m < |es| && OpensAt(root, es, m, id, t.key, t.got) &&
                           PutLast(root, es[..m], p, t.key, t.got)
  {
    var t := Run(Initial(root), es).tasks[id];
    ReadsAreComplete(root, es, id);
    ReaderOpened(root, es, id);
    var m :| 0 <= m < |es| && OpensAt(root, es, m, id, t.key, t.seen);
    KeysHoldCompleteWrites(root, es[..m], t.key, t.seen);
    var p :| 0 <= p < m && PutLast(root, es[..m], p, t.key, t.seen);
  }

  lemma ReadsAreComplete(root: string, es: seq<Event>, id: nat)
    requires id in Run(Initial(root), es).tasks && Run(Initial(root), es).tasks[id].Fetched?
    ensures Run(Initial(root), es).tasks[id].got == Run(Initial(root), es).tasks[id].seen
  {
    RunInv(root, es);
    assert TaskInv(Run(Initial(root), es), id, Run(Initial(root), es).tasks[id]);
  }

  /* ---------- writes ---------- */

  /** Event m is the successful rename of task id. */
  ghost predicate RenamesAt(root: string, es: seq<Event>, m: nat, id: nat)
    requires m < |es|
  {
    es[m] == Go(id, Yes) && id in At(root, es, m).tasks && At(root, es, m).tasks[id].Rename?
  }

  lemma RenameFinishes(s: State, e: Event, id: nat)
    requires DiskInv(s) && id in s.tasks
    ensures id in Step(s, e).tasks
    ensures Finished(Step(s, e).tasks[id]) <==> Finished(s.tasks[id]) || (e == Go(id, Yes) && s.tasks[id].Rename?)
  {
    assert TaskInv(s, id, s.tasks[id]);
  }

  lemma {:induction false} FinishedIffRenamed(root: string, es: seq<Event>, id: nat)
    requires id in Run(Initial(root), es).tasks
    ensures Finished(Run(Initial(root), es).tasks[id]) <==> exists m :: 0 <= m < |es| && RenamesAt(root, es, m, id)
  {
    if es != [] {
      var n := |es| - 1;
      var s := Run(Initial(root), es[..n]);
      PrefixAt(root, es, n);
      if id in s.tasks {
        RunInv(root, es[..n]);
        RenameFinishes(s, es[n], id);
        FinishedIffRenamed(root, es[..n], id);
        assert forall m :: 0 <= m < n ==> (RenamesAt(root, es, m, id) <==> RenamesAt(root, es[..n], m, id));
        assert RenamesAt(root, es, n, id) <==> es[n] == Go(id, Yes) && s.tasks[id].Rename?;
      } else {
        forall m | 0 <= m < |es| ensures !RenamesAt(root, es, m, id) { TasksStay(root, es, m, n, id); }
      }
    }
  }

  lemma {:induction false} TasksStay(root: string, es: seq<Event>, m: nat, n: nat, id: nat)
    requires m <= |es| && n <= |es| && id !in At(root, es, n).tasks && m <= n
    ensures id !in At(root, es, m).tasks
  {
    if m < n {
      assert es[..n][..n - 1] == es[..n - 1];
      TasksStay(root, es, m, n - 1, id);
    }
  }

  /** A Write that has ended reports success if and only if its rename has happened. */
  lemma WriteSucceedsIffRenamed(root: string, es: seq<Event>, id: nat)
    requires id in Run(Initial(root), es).tasks && Run(Initial(root), es).tasks[id].Written?
    ensures Run(Initial(root), es).tasks[id].ok <==> exists m :: 0 <= m < |es| && RenamesAt(root, es, m, id)
  {
    FinishedIffRenamed(root, es, id);
  }

  predicate Removing(t: Task) {
    t.Erase? || t.Erased? || t.Refused?
  }

  lemma {:induction false} RemoverStays(root: string, es: seq<Event>, m: nat, id: nat)
    requires m <= |es| && id in At(root, es, m).tasks && Removing(At(root, es, m).tasks[id])
    ensures id in Run(Initial(root), es).tasks && Removing(Run(Initial(root), es).tasks[id])
    decreases |es|
  {
    if m == |es| {
      assert es[..m] == es;
    } else {
      PrefixAt(root, es, |es| - 1);
      RemoverStays(root, es[..|es| - 1], m, id);
    }
  }

  /** A Write that ends in failure has changed no key, in none of its steps. */
  lemma FailedWritesChangeNothing(root: string, es: seq<Event>, m: nat, id: nat, key: string)
    requires m < |es| && es[m].Go? && es[m].id == id && ValidKey(key)
    requires id in Run(Initial(root), es).tasks && Run(Initial(root), es).tasks[id].Written?
    requires !Run(Initial(root), es).tasks[id].ok
    ensures Lookup(At(root, es, m + 1), key) == Lookup(At(root, es, m), key)
  {
    var s := At(root, es, m);
    assert es[..m + 1][..m] == es[..m];
    RunInv(root, es[..m]);
    StepRefinesMap(s, es[m], key);
    WriteSucceedsIffRenamed(root, es, id);
    if id in s.tasks && s.tasks[id].Erase? {
      RemoverStays(root, es, m, id);
    }
    assert !RenamesAt(root, es, m, id);
  }

  /* ---------- calls and their tasks ---------- */

  /** Event m is the call that task id runs. */
  ghost predicate CalledAt(root: string, es: seq<Event>, m: nat, id: nat, call: Call)
    requires m < |es|
  {
    es[m] == Begin(id, call) && id !in At(root, es, m).tasks
  }

  /** The task does what the call asks for: the same operation, on the same valid key, with the same chunks. */
  predicate Serves(t: Task, call: Call) {
    match t
    case Prepare(key, chunks) => call == Write(key, chunks) && ValidKey(key)
    case Temp(key, chunks) => call == Write(key, chunks) && ValidKey(key)
    case Copy(key, chunks, _, _, _) => call == Write(key, chunks) && ValidKey(key)
    case Close(key, chunks, _, _) => call == Write(key, chunks) && ValidKey(key)
    case Rename(key, chunks, _, _) => call == Write(key, chunks) && ValidKey(key)
    case Cleanup(key, chunks, _, _) => call == Write(key, chunks) && ValidKey(key)
    case Written(key, chunks, _) => call == Write(key, chunks) && ValidKey(key)
    case Open(key) => call == Read(key) && ValidKey(key)
    case Pull(key, _, _, _) => call == Read(key) && ValidKey(key)
    case Fetched(key, _, _) => call == Read(key) && ValidKey(key)
    case Missing(key) => call == Read(key) && ValidKey(key)
    case Erase(key) => call == Remove(key) && ValidKey(key)
    case Erased(key, _) => call == Remove(key) && ValidKey(key)
    case Refused => !ValidKey(call.key)
  }

  lemma WriteServes(s: State, id: nat, t: Task, a: Answer, call: Call)
    requires t.Prepare? || t.Temp? || t.Copy? || t.Close? || t.Rename? || t.Cleanup?
    requires Serves(t, call)
    ensures Serves(WriteStep(s, id, t, a).1, call)
  {
  }

  lemma ReadServes(s: State, t: Task, a: Answer, call: Call)
    requires t.Open? || t.Pull? || t.Erase?
    requires Serves(t, call)
    ensures Serves(ReadStep(s, t, a).1, call)
  {
  }

  lemma StepServes(s: State, id: nat, t: Task, a: Answer, call: Call)
    requires Serves(t, call)
    ensures Serves(TaskStep(s, id, t, a).1, call)
  {
    if t.Prepare? || t.Temp? || t.Copy? || t.Close? || t.Rename? || t.Cleanup? {
      WriteServes(s, id, t, a, call);
    } else if t.Open? || t.Pull? || t.Erase? {
      ReadServes(s, t, a, call);
    }
  }

  /** Every task of every run goes back to one call and does what that call asks for. */
  lemma {:induction false} TasksServeTheirCalls(root: string, es: seq<Event>, id: nat)
    requires id in Run(Initial(root), es).tasks
    ensures exists m, call :: 0 <= m < |es| && CalledAt(root, es, m, id, call) &&
                              Serves(Run(Initial(root), es).tasks[id], call)
  {
    if es != [] {
      var n := |es| - 1;
      var s := Run(Initial(root), es[..n]);
      if id in s.tasks {
        TasksServeTheirCalls(root, es[..n], id);
        var m, call :| 0 <= m < n && CalledAt(root, es[..n], m, id, call) && Serves(s.tasks[id], call);
        PrefixAt(root, es, n);
        if es[n].Go? && es[n].id == id { StepServes(s, id, s.tasks[id], es[n].answer, call); }
        assert CalledAt(root, es, m, id, call);
      } else {
        assert CalledAt(root, es, n, id, es[n].call);
      }
    }
  }

  /* ---------- removes ---------- */

  /** Event m is the successful remove of task id. */
  ghost predicate RemovesAt(root: string, es: seq<Event>, m: nat, id: nat, key: string)
    requires m < |es|
  {
    es[m].Go? && es[m].id == id && DropsNow(At(root, es, m), es[m], key)
  }

  lemma RemoveEnds(s: State, e: Event, id: nat, key: string)
    requires id in s.tasks && (s.tasks[id].Erase? ==> ValidKey(s.tasks[id].key))
    ensures id in Step(s, e).tasks
    ensures Step(s, e).tasks[id] == Erased(key, true) <==>
              s.tasks[id] == Erased(key, true) || (e.Go? && e.id == id && DropsNow(s, e, key))
  {
    if e.Go? && e.id == id { RemoveStepEnds(s, id, s.tasks[id], e.answer, key); }
  }

  lemma RemoveStepEnds(s: State, id: nat, t: Task, a: Answer, key: string)
    requires t.Erase? ==> ValidKey(t.key)
    ensures TaskStep(s, id, t, a).1 == Erased(key, true) <==> t == Erased(key, true) || (t == Erase(key) && a.Yes?)
  {
  }

  lemma {:induction false} ErasedIffRemoved(root: string, es: seq<Event>, id: nat, key: string)
    requires id in Run(Initial(root), es).tasks
    ensures Run(Initial(root), es).tasks[id] == Erased(key, true) <==>
              exists m :: 0 <= m < |es| && RemovesAt(root, es, m, id, key)
  {
    if es != [] {
      var n := |es| - 1;
      var s := Run(Initial(root), es[..n]);
      PrefixAt(root, es, n);
      if id in s.tasks {
        RunInv(root, es[..n]);
        assert TaskInv(s, id, s.tasks[id]);
        RemoveEnds(s, es[n], id, key);
        ErasedIffRemoved(root, es[..n], id, key);
        assert forall m :: 0 <= m < n ==> (RemovesAt(root, es, m, id, key) <==> RemovesAt(root, es[..n], m, id, key));
        assert RemovesAt(root, es, n, id, key) <==> es[n].Go? && es[n].id == id && DropsNow(s, es[n], key);
      } else {
        forall m | 0 <= m < |es| ensures !RemovesAt(root, es, m, id, key) { TasksStay(root, es, m, n, id); }
      }
    }
  }

  /**
   A Delete that has ended was called for its key, and reports success if and only if one of its own
   events removed the key; right after that event the key holds nothing.
   */
  lemma DeleteSucceedsIffRemoved(root: string, es: seq<Event>, id: nat)
    requires id in Run(Initial(root), es).tasks && Run(Initial(root), es).tasks[id].Erased?
    ensures var t := Run(Initial(root), es).tasks[id];
            && (exists b :: 0 <= b < |es| && CalledAt(root, es, b, id, Remove(t.key)))
            && ValidKey(t.key)
            && (t.ok <==> exists m :: 0 <= m < |es| && RemovesAt(root, es, m, id, t.key))
            && forall m :: 0 <= m < |es| && RemovesAt(root, es, m, id, t.key) ==>
                 Lookup(At(root, es, m + 1), t.key) == None
  {
    var t := Run(Initial(root), es).tasks[id];
    TasksServeTheirCalls(root, es, id);
    ErasedIffRemoved(root, es, id, t.key);
    assert ValidKey(t.key);
    forall m | 0 <= m < |es| && RemovesAt(root, es, m, id, t.key) ensures Lookup(At(root, es, m + 1), t.key) == None {
      RemovedIsGone(root, es, m, t.key);
    }
  }

  lemma RemovedIsGone(root: string, es: seq<Event>, m: nat, key: string)
    requires m < |es| && ValidKey(key) && DropsNow(At(root, es, m), es[m], key)
    ensures Lookup(At(root, es, m + 1), key) == None
  {
    assert es[..m + 1][..m] == es[..m];
    RunInv(root, es[..m]);
    StepRefinesMap(At(root, es, m), es[m], key);
  }

  /** A successful rename of a task that wrote these chunks puts all of them under its key. */
  lemma RenamedIsThere(root: string, es: seq<Event>, m: nat, id: nat)
    requires m < |es| && RenamesAt(root, es, m, id) && id in Run(Initial(root), es).tasks
    ensures var t := Run(Initial(root), es).tasks[id];
            Writing(t) && ValidKey(t.key) && Lookup(At(root, es, m + 1), t.key) == Some(Flat(t.chunks))
  {
    assert es[..m + 1][..m] == es[..m];
    RunInv(root, es[..m]);
    assert TaskInv(At(root, es, m), id, At(root, es, m).tasks[id]);
    WriterStays(root, es, m, id);
    StepRefinesMap(At(root, es, m), es[m], At(root, es, m).tasks[id].key);
  }

  /** A Write that reports success was called with these very chunks, and its rename put all of them there. */
  lemma WrittenIsWhatWasAsked(root: string, es: seq<Event>, id: nat)
    requires id in Run(Initial(root), es).tasks && Run(Initial(root), es).tasks[id].Written?
    requires Run(Initial(root), es).tasks[id].ok
    ensures var t := Run(Initial(root), es).tasks[id];
            && (exists b :: 0 <= b < |es| && CalledAt(root, es, b, id, Write(t.key, t.chunks)))
            && ValidKey(t.key)
            && exists m :: 0 <= m < |es| && RenamesAt(root, es, m, id) &&
                 Lookup(At(root, es, m + 1), t.key) == Some(Flat(t.chunks))
  {
    TasksServeTheirCalls(root, es, id);
    WriteSucceedsIffRenamed(root, es, id);
    var m :| 0 <= m < |es| && RenamesAt(root, es, m, id);
    RenamedIsThere(root, es, m, id);
  }

  predicate Writing(t: Task) {
    t.Prepare? || t.Temp? || t.Copy? || t.Close? || t.Rename? || t.Cleanup? || t.Written?
  }

  lemma WriteKeepsCall(s: State, id: nat, t: Task, a: Answer)
    requires Writing(t)
    ensures var t' := TaskStep(s, id, t, a).1; Writing(t') && t'.key == t.key && t'.chunks == t.chunks
  {
  }

  lemma {:induction false} WriterStays(root: string, es: seq<Event>, m: nat, id: nat)
    requires m <= |es| && id in At(root, es, m).tasks && Writing(At(root, es, m).tasks[id])
    ensures id in Run(Initial(root), es).tasks
    ensures var t, t' := At(root, es, m).tasks[id], Run(Initial(root), es).tasks[id];
            Writing(t') && t'.key == t.key && t'.chunks == t.chunks
    decreases |es|
  {
    if m == |es| {
      assert es[..m] == es;
    } else {
      var n := |es| - 1;
      PrefixAt(root, es, n);
      WriterStays(root, es[..n], m, id);
      var s := Run(Initial(root), es[..n]);
      if es[n].Go? && es[n].id == id { WriteKeepsCall(s, id, s.tasks[id], es[n].answer); }
    }
  }
}
