/** The invariant holds in every state of every run. */
module Reachable {
  import opened Machine
  import opened Invariant
  import opened Stability
  import opened Effects
  import opened Steps

  lemma InitialInv(now: int, bcrypt: (string, string) -> bool)
    ensures Inv(Initial(now, bcrypt))
  {
  }

  /** The operation that moved knows its new invariant; all others keep theirs. */
  lemma Compose(s: Sys, id: nat, next: (World, Op))
    requires Inv(s) && Good(s.w, id, next)
    ensures Inv(Sys(next.0, s.ops[id := next.1]))
  {
    var s' := Sys(next.0, s.ops[id := next.1]);
    forall i | i in s'.ops ensures OpInv(s'.w, i, s'.ops[i]) {
      if i != id { OpStable(s.w, s'.w, id, i, s.ops[i]); }
    }
  }

  lemma TimeGuarantee(w: World, w': World, a: nat)
    requires w.now <= w'.now && w' == w.(now := w'.now)
    ensures Guarantee(w, w', a)
  {
  }

  /** No operation moves while time passes: to operation i it is a step of somebody else. */
  lemma TickOps(s: Sys, s': Sys)
    requires Inv(s) && PlanOk(s'.w) && s'.ops == s.ops
    requires s.w.now <= s'.w.now && s'.w == s.w.(now := s'.w.now)
    ensures forall i :: i in s'.ops ==> OpInv(s'.w, i, s'.ops[i])
  {
    forall i | i in s'.ops ensures OpInv(s'.w, i, s'.ops[i]) {
      TimeGuarantee(s.w, s'.w, i + 1);
      OpStable(s.w, s'.w, i + 1, i, s.ops[i]);
    }
  }

  lemma TickInv(s: Sys, d: nat)
    requires Inv(s)
    ensures Inv(Step(s, Tick(d)))
  {
    TimePasses(s.w, d, 0);
    TickOps(s, Step(s, Tick(d)));
  }

  lemma StartInv(s: Sys, id: nat, req: Request)
    requires Inv(s) && id !in s.ops && Possible(s.w, req)
    ensures Inv(Step(s, Start(id, req)))
  {
    BeginIsGood(s.w, id, req);
    Compose(s, id, Begin(s.w, id, req));
  }

  lemma AdvanceInv(s: Sys, id: nat, c: Choice)
    requires Inv(s) && id in s.ops
    ensures Inv(Step(s, Advance(id, c)))
  {
    StepIsGood(s.w, id, s.ops[id], c);
    Compose(s, id, StepOp(s.w, id, s.ops[id], c));
  }

  lemma StepInv(s: Sys, e: Event)
    requires Inv(s)
    ensures Inv(Step(s, e))
  {
    if e.Tick? {
      TickInv(s, e.d);
    } else if e.Start? && e.id !in s.ops && Possible(s.w, e.req) {
      StartInv(s, e.id, e.req);
    } else if e.Advance? && e.id in s.ops {
      AdvanceInv(s, e.id, e.choice);
    }
  }

  /** Every state of every run. */
  ghost predicate IsReachable(s: Sys) {
    exists now, bcrypt, es :: s == Run(Initial(now, bcrypt), es)
  }

  lemma {:induction false} RunInv(s: Sys, es: seq<Event>)
    requires Inv(s)
    ensures Inv(Run(s, es))
  {
    if es != [] {
      RunInv(s, es[..|es| - 1]);
      StepInv(Run(s, es[..|es| - 1]), es[|es| - 1]);
    }
  }

  lemma ReachableInv(s: Sys)
    requires IsReachable(s)
    ensures Inv(s)
  {
    var now, bcrypt, es :| s == Run(Initial(now, bcrypt), es);
    InitialInv(now, bcrypt);
    RunInv(Initial(now, bcrypt), es);
  }
}
