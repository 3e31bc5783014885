/** The file-or-paste choice of /{slug} and /delete/{slug}/{secret}, driven by a GetMeta probe. */
module Dispatch {
  import opened Shares
  import opened Machine
  import opened Reachable
  import opened Contents

  /** The view goes to the file handler when the probe finds a file, even an expired one. */
  predicate ViewsFile(probe: Outcome) {
    probe.Accepted? || probe.WrongPassword? || probe.LapsedShare?
  }

  /** The delete goes to the file handler unless the probe says there is no such file. */
  predicate DeletesFile(probe: Outcome) {
    !probe.NotFound?
  }

  /** GetMeta of a file, its lookup and its check taken at one instant; `answer` is the lookup's fate. */
  function Probe(w: World, slug: string, answer: Choice): Outcome {
    var r := Ref(FileShare, slug);
    match LookupStep(w, r, "", MetaOnly, answer)
    case Done(o) => o
    case RdCheck(_, pw, goal, meta, files) =>
      (match Check(w, r, pw, goal, meta, files)
       case Done(o) => o
       case _ => Failed)
    case _ => Failed
  }

  /**
   With lookups that succeed, view and delete both reach the handler of the table that holds the
   slug, whatever the share's expiry, password or mark; a paste is never mistaken for a file.
   */
  lemma DispatchReachesTheTable(s: Sys, slug: string)
    requires IsReachable(s)
    ensures var probe := Probe(s.w, slug, Succeed);
            && (ViewsFile(probe) <==> Ref(FileShare, slug) in s.w.rows)
            && (DeletesFile(probe) <==> Ref(FileShare, slug) in s.w.rows)
            && (Ref(PasteShare, slug) in s.w.rows ==> !ViewsFile(probe) && !DeletesFile(probe))
  {
    if Ref(PasteShare, slug) in s.w.rows {
      ReachableInv(s);
      KeysAreSlugs(s, slug);
    }
  }

  /** View and delete choose the same kind of share if and only if the probe's lookup does not fail. */
  lemma ViewAndDeleteAgree(w: World, slug: string, answer: Choice)
    ensures var probe := Probe(w, slug, answer); ViewsFile(probe) == DeletesFile(probe) <==> answer.Succeed?
  {
  }
}
