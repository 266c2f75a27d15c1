/** When a call of ref adoption moves Git or issues its receipt, said of the repository and what was seen. */
module RefAdoptionOutcomes {
  import opened RefAdoption

  /** The candidate was the clean exact target above the expected commit; stable, port and pid checks passed;
      no other worktree had the branch; and a presented receipt was of this adoption and this stable. */
  predicate Seen(c: Call, expected: Commit, target: Commit) {
    && c.seen.candidateExact && c.seen.quiet && !c.seen.devElsewhere
    && (c.resume.Some? ==>
          var r := c.resume.value;
          r.expected == expected && r.target == target && r.stable == c.seen.stable)
  }

  predicate PresentsStage(c: Call, stage: Stage) {
    c.resume.Some? && c.resume.value.stage == stage
  }

  /** No call changes Git or issues a receipt without having seen all that; none changes Git over a
      worktree that is not clean. */
  lemma NothingUnseen(g: Git, c: Call, expected: Commit, target: Commit)
    ensures var s := AdoptStep(g, c, expected, target);
      && (s.git != g || s.outcome != Refused ==> Seen(c, expected, target))
      && (s.git != g ==> c.seen.clean)
  {
  }

  /** Git does move, in which phase from where to where. */
  predicate Moves(g: Git, c: Call, expected: Commit, target: Commit, g': Git) {
    && Seen(c, expected, target) && c.seen.clean
    && match c.phase
       case Detach => g == Git(OnDev, expected, expected) && g' == Git(Detached, expected, expected)
       case Cas =>
         && (PresentsStage(c, DetachedStage) || PresentsStage(c, CasStage)) && expected != target
         && g == Git(Detached, expected, expected) && g' == Git(Detached, expected, target)
       case Attach =>
         && (PresentsStage(c, CasStage) || PresentsStage(c, AttachedStage))
         && g == Git(Detached, expected, target) && g' == Git(OnDev, target, target)
  }

  /** The phase finds its work done. */
  predicate FindsDone(g: Git, c: Call, expected: Commit, target: Commit) {
    && Seen(c, expected, target)
    && match c.phase
       case Detach => g == Git(Detached, expected, expected) && PresentsStage(c, DetachedStage)
       case Cas =>
         && (PresentsStage(c, DetachedStage) || PresentsStage(c, CasStage))
         && g == Git(Detached, expected, target) && c.seen.clean
       case Attach => g == Git(OnDev, target, target) && (PresentsStage(c, CasStage) || PresentsStage(c, AttachedStage))
  }

  function StageAfter(phase: Phase): Stage {
    match phase
    case Detach => DetachedStage
    case Cas => CasStage
    case Attach => AttachedStage
  }

  function StatusAfter(phase: Phase, done: bool): Status {
    match phase
    case Detach => if done then IdempotentDetached else NewlyDetached
    case Cas => if done then IdempotentSwapped else NewlySwapped
    case Attach => if done then IdempotentAttached else NewlyAttached
  }

  /** Adoption, exactly: a call moves Git as its phase says, or finds its work done, or is refused and changes
      nothing; a receipt states stage, status, commits, stable identity and Git before and after; and
      only a crash over a move loses it. */
  lemma AdoptExactly(g: Git, c: Call, expected: Commit, target: Commit, g': Git)
    ensures var s := AdoptStep(g, c, expected, target);
      && (Moves(g, c, expected, target, g') ==> s == Step(g',
            if c.crash then Crashed
            else Issued(Receipt(StageAfter(c.phase), StatusAfter(c.phase, false), expected, target, c.seen.stable, g, g'))))
      && (FindsDone(g, c, expected, target) ==>
            s == Step(g, Issued(Receipt(StageAfter(c.phase), StatusAfter(c.phase, true), expected, target, c.seen.stable, g, g))))
      && (!Moves(g, c, expected, target, s.git) && !FindsDone(g, c, expected, target) ==> s == Step(g, Refused))
  {
  }
}
