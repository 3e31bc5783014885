/** LocalFS undisturbed: writes succeed, reads give back what was written, removes remove. */
module LocalAlone {
  import opened Wrappers
  import opened Images
  import opened KeyPaths
  import opened LocalStore

  /** Task id makes one system call per answer. */
  function Alone(s: State, id: nat, answers: seq<Answer>): State {
    if answers == [] then s else Step(Alone(s, id, answers[..|answers| - 1]), Go(id, answers[|answers| - 1]))
  }

  lemma {:induction false} AloneSplits(s: State, id: nat, a: seq<Answer>, b: seq<Answer>)
    ensures Alone(s, id, a + b) == Alone(Alone(s, id, a), id, b)
  {
    if b == [] {
      assert a + b == a;
    } else {
      AloneSplits(s, id, a, b[..|b| - 1]);
      assert (a + b)[..|a + b| - 1] == a + b[..|b| - 1];
    }
  }

  lemma OneCall(s: State, id: nat, a: Answer)
    ensures Alone(s, id, [a]) == Step(s, Go(id, a))
  {
    assert [a][..0] == [];
  }

  lemma TwoCalls(s: State, id: nat, a: Answer, b: Answer)
    ensures Alone(s, id, [a, b]) == Step(Step(s, Go(id, a)), Go(id, b))
  {
    assert [a, b] == [a] + [b];
    AloneSplits(s, id, [a], [b]);
    OneCall(s, id, a);
    OneCall(Step(s, Go(id, a)), id, b);
  }

  function Yeses(n: nat): (answers: seq<Answer>)
    ensures |answers| == n && forall i :: 0 <= i < n ==> answers[i] == Yes
  {
    seq(n, i requires 0 <= i < n => Yes)
  }

  /** The temp file's name and inode are drawn afresh. */
  predicate FreshTemp(s: State, key: string, suffix: string, ino: nat) {
    var tmp := TempPath(Folder(s.root, key), suffix);
    tmp !in s.disk.names && tmp !in s.tempOwner && ino !in s.disk.data && ino !in s.owner
  }

  /* ---------- writing ---------- */

  /** The copy has written the first `done` chunks to its own inode. */
  predicate Copied(s: State, id: nat, key: string, chunks: seq<Bytes>, tmp: string, ino: nat, done: nat) {
    && done <= |chunks|
    && id in s.tasks && s.tasks[id] == Copy(key, chunks, tmp, ino, done)
    && tmp in s.disk.names && s.disk.names[tmp] == ino
    && ino in s.disk.data && s.disk.data[ino] == Flat(chunks[..done])
  }

  lemma OpensTemp(s: State, id: nat, key: string, chunks: seq<Bytes>, suffix: string, ino: nat)
    requires id !in s.tasks && ValidKey(key) && FreshTemp(s, key, suffix, ino)
    ensures var s1 := Step(s, Begin(id, Write(key, chunks)));
            var t := Step(Step(s1, Go(id, Yes)), Go(id, Named(suffix, ino)));
            Copied(t, id, key, chunks, TempPath(Folder(s.root, key), suffix), ino, 0) && t.root == s.root
  {
    assert chunks[..0] == [];
  }

  lemma CopiesOne(s: State, id: nat, key: string, chunks: seq<Bytes>, tmp: string, ino: nat, done: nat)
    requires Copied(s, id, key, chunks, tmp, ino, done) && done < |chunks|
    ensures Copied(Step(s, Go(id, Yes)), id, key, chunks, tmp, ino, done + 1) && Step(s, Go(id, Yes)).root == s.root
  {
    CopyAppends(chunks, done);
  }

  lemma {:induction false} CopiesAll(s: State, id: nat, key: string, chunks: seq<Bytes>, tmp: string, ino: nat, k: nat)
    requires Copied(s, id, key, chunks, tmp, ino, 0) && k <= |chunks|
    ensures var t := Alone(s, id, Yeses(k)); Copied(t, id, key, chunks, tmp, ino, k) && t.root == s.root
  {
    if k > 0 {
      CopiesAll(s, id, key, chunks, tmp, ino, k - 1);
      assert Yeses(k)[..k - 1] == Yeses(k - 1);
      CopiesOne(Alone(s, id, Yeses(k - 1)), id, key, chunks, tmp, ino, k - 1);
    }
  }

  /** Close, rename and the deferred remove, after the last chunk. */
  lemma Publishes(s: State, id: nat, key: string, chunks: seq<Bytes>, tmp: string, ino: nat)
    requires Copied(s, id, key, chunks, tmp, ino, |chunks|) && ValidKey(key) && tmp != KeyPath(s.root, key).value
    ensures var closed := Step(s, Go(id, Yes)); var renaming := Step(closed, Go(id, Yes));
            var renamed := Step(renaming, Go(id, Yes)); var t := Step(renamed, Go(id, Yes));
            && id in t.tasks && t.tasks[id] == Written(key, chunks, true)
            && t.root == s.root && Lookup(t, key) == Some(Flat(chunks))
  {
    assert chunks[..|chunks|] == chunks;
    CopyCloses(s, id, key, chunks, tmp, ino);
    var renaming := Step(Step(s, Go(id, Yes)), Go(id, Yes));
    RenameShows(renaming, id, key, chunks, tmp, ino);
    CleanupEnds(Step(renaming, Go(id, Yes)), id, key, chunks, tmp);
  }

  lemma CopyCloses(s: State, id: nat, key: string, chunks: seq<Bytes>, tmp: string, ino: nat)
    requires Copied(s, id, key, chunks, tmp, ino, |chunks|)
    ensures var renaming := Step(Step(s, Go(id, Yes)), Go(id, Yes));
            && renaming.root == s.root && renaming.disk == s.disk
            && id in renaming.tasks && renaming.tasks[id] == Rename(key, chunks, tmp, ino)
  {
    assert Step(s, Go(id, Yes)) == s.(tasks := s.tasks[id := Close(key, chunks, tmp, ino)]);
  }

  lemma RenameShows(s: State, id: nat, key: string, chunks: seq<Bytes>, tmp: string, ino: nat)
    requires id in s.tasks && s.tasks[id] == Rename(key, chunks, tmp, ino) && ValidKey(key)
    requires tmp in s.disk.names && s.disk.names[tmp] == ino && ino in s.disk.data && s.disk.data[ino] == Flat(chunks)
    requires tmp != KeyPath(s.root, key).value
    ensures var t := Step(s, Go(id, Yes));
            && t.root == s.root && Lookup(t, key) == Some(Flat(chunks))
            && id in t.tasks && t.tasks[id] == Cleanup(key, chunks, tmp, true)
  {
  }

  lemma CleanupEnds(s: State, id: nat, key: string, chunks: seq<Bytes>, tmp: string)
    requires id in s.tasks && s.tasks[id] == Cleanup(key, chunks, tmp, true) && ValidKey(key)
    requires tmp != KeyPath(s.root, key).value
    ensures var t := Step(s, Go(id, Yes));
            && t.root == s.root && Lookup(t, key) == Lookup(s, key)
            && id in t.tasks && t.tasks[id] == Written(key, chunks, true)
  {
  }

  /** The answers of a Write that nothing disturbs. */
  function WriteAnswers(n: nat, suffix: string, ino: nat): seq<Answer> {
    [Yes, Named(suffix, ino)] + (Yeses(n) + ([Yes, Yes] + [Yes, Yes]))
  }

  /** A Write whose calls all succeed reports success, and its key holds all its chunks. */
  lemma WriteAlone(s: State, id: nat, key: string, chunks: seq<Bytes>, suffix: string, ino: nat)
    requires id !in s.tasks && ValidKey(key) && FreshTemp(s, key, suffix, ino)
    ensures var t := Alone(Step(s, Begin(id, Write(key, chunks))), id, WriteAnswers(|chunks|, suffix, ino));
            && id in t.tasks && t.tasks[id] == Written(key, chunks, true)
            && t.root == s.root && Lookup(t, key) == Some(Flat(chunks))
  {
    var s1 := Step(s, Begin(id, Write(key, chunks)));
    var tmp := TempPath(Folder(s.root, key), suffix);
    var tail := [Yes, Yes] + [Yes, Yes];
    OpensTemp(s, id, key, chunks, suffix, ino);
    TwoCalls(s1, id, Yes, Named(suffix, ino));
    var s2 := Alone(s1, id, [Yes, Named(suffix, ino)]);
    CopiesAll(s2, id, key, chunks, tmp, ino, |chunks|);
    var s3 := Alone(s2, id, Yeses(|chunks|));
    NoTempIsAKey(s.root, key, key, suffix);
    Publishes(s3, id, key, chunks, tmp, ino);
    FourCalls(s3, id);
    AloneSplits(s2, id, Yeses(|chunks|), tail);
    AloneSplits(s1, id, [Yes, Named(suffix, ino)], Yeses(|chunks|) + tail);
  }

  lemma FourCalls(s: State, id: nat)
    ensures Alone(s, id, [Yes, Yes] + [Yes, Yes]) ==
              Step(Step(Step(Step(s, Go(id, Yes)), Go(id, Yes)), Go(id, Yes)), Go(id, Yes))
  {
    AloneSplits(s, id, [Yes, Yes], [Yes, Yes]);
    TwoCalls(s, id, Yes, Yes);
    TwoCalls(Step(Step(s, Go(id, Yes)), Go(id, Yes)), id, Yes, Yes);
  }

  /* ---------- reading and removing ---------- */

  /** A Read that opens a key the map holds and pulls all of it returns exactly what the map holds. */
  lemma ReadAlone(s: State, id: nat, key: string)
    requires id !in s.tasks && ValidKey(key) && Lookup(s, key).Some?
    ensures var bytes := Lookup(s, key).value;
            var t := Alone(Step(s, Begin(id, Read(key))), id, [Yes, Partly(|bytes|)] + [Yes]);
            id in t.tasks && t.tasks[id] == Fetched(key, bytes, bytes) && t.disk == s.disk
  {
    var bytes := Lookup(s, key).value;
    var s1 := Step(s, Begin(id, Read(key)));
    AloneSplits(s1, id, [Yes, Partly(|bytes|)], [Yes]);
    TwoCalls(s1, id, Yes, Partly(|bytes|));
    var s2 := Step(s1, Go(id, Yes));
    assert bytes[0..] == bytes && [] + bytes == bytes && bytes[..|bytes|] == bytes;
    assert s2.tasks[id] == Pull(key, s.disk.names[KeyPath(s.root, key).value], bytes, []);
    var s3 := Step(s2, Go(id, Partly(|bytes|)));
    assert s3.tasks[id] == if bytes == [] then Fetched(key, [], [])
                           else Pull(key, s.disk.names[KeyPath(s.root, key).value], bytes, bytes);
    OneCall(s3, id, Yes);
  }

  /** A Delete whose call succeeds reports success, and its key holds nothing. */
  lemma RemoveAlone(s: State, id: nat, key: string)
    requires id !in s.tasks && ValidKey(key)
    ensures var t := Alone(Step(s, Begin(id, Remove(key))), id, [Yes]);
            id in t.tasks && t.tasks[id] == Erased(key, true) && Lookup(t, key) == None
  {
    OneCall(Step(s, Begin(id, Remove(key))), id, Yes);
  }

  /** Round trip: what a Write has been given in chunks, a later Read returns in one piece. */
  lemma RoundTrip(s: State, writer: nat, reader: nat, key: string, chunks: seq<Bytes>, suffix: string, ino: nat)
    requires writer !in s.tasks && ValidKey(key) && FreshTemp(s, key, suffix, ino)
    ensures var t := Alone(Step(s, Begin(writer, Write(key, chunks))), writer, WriteAnswers(|chunks|, suffix, ino));
            reader !in t.tasks ==>
              var u := Alone(Step(t, Begin(reader, Read(key))), reader, [Yes, Partly(|Flat(chunks)|)] + [Yes]);
              reader in u.tasks && u.tasks[reader] == Fetched(key, Flat(chunks), Flat(chunks))
  {
    WriteAlone(s, writer, key, chunks, suffix, ino);
    var t := Alone(Step(s, Begin(writer, Write(key, chunks))), writer, WriteAnswers(|chunks|, suffix, ino));
    if reader !in t.tasks { ReadAlone(t, reader, key); }
  }
}
