/** View changes of the system's replicas: what any reachable correct replica composes, and when it verifies. */
module Handover {
  import opened Messages
  import opened ReplicaState
  import opened Window
  import opened OneView
  import opened Agreement
  import opened ViewChanges

  lemma ReachableReached(sys: Sys, cfg: Config, correct: set<int>, ok: Message -> bool, r: int)
    requires Reachable(sys, cfg, correct, ok) && r in sys.replicas
    ensures Reached(cfg.(id := r), sys.replicas[r]) && Ready(sys.replicas[r], VotesOf(sys), ok) && cfg.k >= 1
    ensures sys.replicas[r].cfg == cfg.(id := r)
  {
    hide After, SysInv, Ready, Run, Init, VotesOf, Everyone;
    ReachableOk(sys, cfg, correct, ok);
    Replicas(sys, cfg, correct, ok);
    var mvs :| After(Start(cfg, correct), ok, mvs) == Some(sys);
    var es := LocalRun(cfg, correct, ok, mvs, r);
    ConfigOf(sys, cfg, correct, ok, r);
  }

  /** In every reachable state, what a correct replica composes passes verification at any replica `there` exactly
      when it has no stable checkpoint, or 2f + 1 of its stored checkpoint messages carry its digest and every
      prepared slot of its log stores 2f prepares that verify there. */
  lemma ComposedVerifies(sys: Sys, cfg: Config, correct: set<int>, ok: Message -> bool, r: int, there: int, view: int)
    requires Reachable(sys, cfg, correct, ok) && r in sys.replicas
    ensures var s := sys.replicas[r];
            VerifyViewChange(cfg.(id := there), Compose(s, view)) <==>
            (s.stableSeq == -1 ||
             (|Matching(s)| >= 2 * cfg.f + 1 &&
              forall n | n in s.slots && s.low <= n && AtLeastPrepared(s.slots[n]) ::
                |VerifiableAt(there, s.slots[n])| >= 2 * cfg.f))
  {
    hide Reachable, Reached, Ready, VotesOf, VerifyViewChange, Compose, Matching, VerifiableAt;
    ReachableReached(sys, cfg, correct, ok, r);
    ComposeVerifies(cfg.(id := r), sys.replicas[r], cfg.(id := there), view);
  }

  /** While the replicas stay in one view it passes when every stored checkpoint message carries the digest, every
      committed slot of the log went through the slow path, and the stored MACs are good for `there`. */
  lemma SlowPathComposed(sys: Sys, cfg: Config, correct: set<int>, ok: Message -> bool, r: int, there: int, view: int)
    requires Reachable(sys, cfg, correct, ok) && r in sys.replicas
    requires var s := sys.replicas[r];
             (forall p | p in s.stableProofs :: s.stableProofs[p].data.digest == s.stableDigest) &&
             (forall n | n in s.slots && s.low <= n &&
              (s.slots[n].status == Committed || s.slots[n].status == Executed) ::
                |s.slots[n].prepares| >= 2 * cfg.f) &&
             (forall n | n in s.slots && s.low <= n :: forall p | p in s.slots[n].prepares ::
                there in s.slots[n].prepares[p].sig.validFor)
    ensures VerifyViewChange(cfg.(id := there), Compose(sys.replicas[r], view))
  {
    hide Reachable, Reached, Ready, VotesOf, VerifyViewChange, Compose, ProofsOk, Everyone, LeaderOf;
    ReachableReached(sys, cfg, correct, ok, r);
    var s := sys.replicas[r];
    forall n | n in s.slots && s.low <= n && AtLeastPrepared(s.slots[n])
      ensures |s.slots[n].prepares| >= 2 * cfg.f
    {
      SlotFacts(s, VotesOf(sys), ok, n);
    }
    SlowPathVerifies(cfg.(id := r), s, cfg.(id := there), view);
  }
}
