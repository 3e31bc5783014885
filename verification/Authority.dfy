/**
 Who got what, in terms of requests alone: content and metadata go only to requests that may have them,
 rows go only on the request of their owner or after their deadline, and deadlines are kept.
 */
module Authority {
  import opened Wrappers
  import opened Images
  import opened Shares
  import opened Machine
  import opened Invariant
  import opened Reachable
  import opened Delivery
  import opened Removal
  import opened Requests
  import Expiry

  /* ---------- an operation serves one request ---------- */

  /** The operation does what the request asks for: same share, same password or secret, same goal. */
  predicate Serves(op: Op, req: Request) {
    match op
    case UpWrite(slug, _, _) => req.Upload? && req.slug == slug
    case UpInsert(slug, _) => req.Upload? && req.slug == slug
    case PasteInsert(slug, _) => req.NewPaste? && req.slug == slug
    case Undo(_) => req.Upload? || req.NewBucket?
    case CrWrite(slug, _, _, _) => req.NewBucket? && req.slug == slug
    case CrAdd(slug, _, _) => req.NewBucket? && req.slug == slug
    case RdRow(r, pw, goal) => req == Read(r, pw, goal)
    case RdFiles(r, pw, goal, _) => req == Read(r, pw, goal)
    case RdCheck(r, pw, goal, _, _) => req == Read(r, pw, goal)
    case RdMark(r, pw, _, _, _) => req == Read(r, pw, Fetch)
    case RdSend(r, goal, _, _, _) => req.Read? && req.ref == r && req.goal == goal
    case DlRow(r, secret) => req == Delete(r, secret)
    case DlFiles(r, secret, _) => req == Delete(r, secret)
    case SwList(why) => why.BySweep? && req == Sweep
    case SwFiles(why, _, _) => why.BySweep? && req == Sweep
    case Purge(why, items) =>
      if why.BySweep? then req == Sweep else |items| == 1 && req == Delete(items[0].ref, why.secret)
    case Done(o) => Concludes(o, req)
  }

  /** The outcome is one the request can have. */
  predicate Concludes(o: Outcome, req: Request) {
    match o
    case Stored(r) => Creating(req) && ShareOf(req) == r
    case Rejected => Creating(req)
    case Accepted(r, _, _) => req.Read? && req.ref == r && req.goal.MetaOnly?
    case Sent(r, goal, _, _, _) => req.Read? && req.ref == r && req.goal == goal
    case Broken(r, goal, _, _, _) => req.Read? && req.ref == r && req.goal == goal
    case Removed(r) => req.Delete? && req.ref == r
    case Swept(_, _) => req == Sweep
    case _ => true
  }

  lemma CreationServes(w: World, id: nat, op: Op, c: Choice, req: Request)
    requires Creates(op) && Serves(op, req)
    ensures Serves(CreationStep(w, id, op, c).1, req)
  {
    match op
    case Undo(keys) =>
    case CrWrite(slug, meta, inputs, stored) =>
    case CrAdd(slug, stored, next) => AddServes(w, slug, stored, next, c, req);
    case _ =>
  }

  lemma AddServes(w: World, slug: string, stored: seq<Member>, next: nat, c: Choice, req: Request)
    requires Serves(CrAdd(slug, stored, next), req)
    ensures Serves(AddStep(w, slug, stored, next, c).1, req)
  {
  }

  lemma ReadServes(w: World, id: nat, op: Op, c: Choice, req: Request)
    requires Reads(op) && Serves(op, req)
    ensures Serves(ReadStep(w, id, op, c).1, req)
  {
  }

  lemma DeleteServes(w: World, op: Op, c: Choice, req: Request)
    requires (op.DlRow? || op.DlFiles?) && Serves(op, req)
    ensures Serves(DeleteStep(w, op, c).1, req)
  {
  }

  lemma PurgeServes(w: World, why: Why, items: seq<Item>, c: Choice, req: Request)
    requires Serves(Purge(why, items), req)
    ensures Serves(PurgeStep(w, why, items, c).1, req)
  {
  }

  lemma ListServes(w: World, op: Op, c: Choice, req: Request)
    requires (op.SwList? || op.SwFiles?) && Serves(op, req)
    ensures Serves(RemovalStep(w, op, c).1, req)
  {
  }

  lemma StepServes(w: World, id: nat, op: Op, c: Choice, req: Request)
    requires Serves(op, req)
    ensures Serves(StepOp(w, id, op, c).1, req)
  {
    if Creates(op) {
      CreationServes(w, id, op, c, req);
    } else if Reads(op) {
      ReadServes(w, id, op, c, req);
    } else if op.DlRow? || op.DlFiles? {
      DeleteServes(w, op, c, req);
    } else if op.Purge? {
      PurgeServes(w, op.why, op.items, c, req);
    } else if op.SwList? || op.SwFiles? {
      ListServes(w, op, c, req);
    }
  }

  lemma BeginServes(w: World, id: nat, req: Request)
    requires Possible(w, req)
    ensures Serves(Begin(w, id, req).1, req)
  {
  }

  /** The operation of an accepted request serves that request for ever. */
  lemma {:induction false} ServedForever(s0: Sys, es: seq<Event>, m: nat)
    requires m < |es| && AskedAt(s0, es, m)
    ensures es[m].id in Run(s0, es).ops && Serves(Run(s0, es).ops[es[m].id], es[m].req)
    decreases |es|
  {
    var n := |es| - 1;
    var s := Run(s0, es[..n]);
    if m == n {
      BeginServes(s.w, es[m].id, es[m].req);
    } else {
      assert es[..n][..m] == es[..m];
      ServedForever(s0, es[..n], m);
      if es[n].Advance? && es[n].id == es[m].id { StepServes(s.w, es[m].id, s.ops[es[m].id], es[n].choice, es[m].req); }
    }
  }

  /** Event k is the request that operation id, now at op, serves. */
  ghost predicate ServesAt(s0: Sys, es: seq<Event>, k: nat, id: nat, op: Op)
    requires k < |es|
  {
    AskedAt(s0, es, k) && es[k].id == id && Serves(op, es[k].req)
  }

  ghost predicate WasAsked(s0: Sys, es: seq<Event>, id: nat, op: Op) {
    exists k :: 0 <= k < |es| && ServesAt(s0, es, k, id, op)
  }

  lemma AskedStays(s0: Sys, es: seq<Event>, id: nat, op: Op, op': Op)
    requires es != [] && WasAsked(s0, es[..|es| - 1], id, op)
    requires forall req :: Serves(op, req) ==> Serves(op', req)
    ensures WasAsked(s0, es, id, op')
  {
    var n := |es| - 1;
    var k :| 0 <= k < n && ServesAt(s0, es[..n], k, id, op);
    AskedBefore(s0, es, n, k);
    assert ServesAt(s0, es, k, id, op');
  }

  /** Every operation of a run goes back to one request, and serves it. */
  lemma {:induction false} EveryOpWasAsked(now: int, bcrypt: (string, string) -> bool, es: seq<Event>, id: nat)
    requires id in Run(Initial(now, bcrypt), es).ops
    ensures WasAsked(Initial(now, bcrypt), es, id, Run(Initial(now, bcrypt), es).ops[id])
  {
    var s0 := Initial(now, bcrypt);
    if es != [] {
      var n := |es| - 1;
      var s := Run(s0, es[..n]);
      if id in s.ops {
        EveryOpWasAsked(now, bcrypt, es[..n], id);
        if es[n].Advance? && es[n].id == id {
          forall req | Serves(s.ops[id], req) ensures Serves(StepOp(s.w, id, s.ops[id], es[n].choice).1, req) {
            StepServes(s.w, id, s.ops[id], es[n].choice, req);
          }
        }
        AskedStays(s0, es, id, s.ops[id], Run(s0, es).ops[id]);
      } else {
        BeginServes(s.w, id, es[n].req);
        assert ServesAt(s0, es, n, id, Run(s0, es).ops[id]);
      }
    }
  }
}
