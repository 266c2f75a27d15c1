/** Canonical ref adoption: detach, compare-and-swap, attach (agent/cli.py).

    One repository, one canonical worktree, one dev branch.  Each command runs one
    phase; a crash after the Git effect loses the receipt the command would print. */
module RefAdoption {
  import opened Common

  datatype Commit = Commit(id: nat, tree: nat)

  datatype Branch = Detached | OnDev | OnOther

  /** The canonical worktree's checkout, its HEAD, and the dev ref. */
  datatype Git = Git(branch: Branch, head: Commit, ref: Commit)

  datatype Stage = DetachedStage | CasStage | AttachedStage

  datatype Status =
    | NewlyDetached | IdempotentDetached | NewlySwapped | IdempotentSwapped
    | NewlyAttached | IdempotentAttached

  datatype Receipt = Receipt(
    stage: Stage, status: Status, expected: Commit, target: Commit, stable: nat, pre: Git, post: Git)

  datatype Phase = Detach | Cas | Attach

  /** What the command observes besides the canonical worktree: whether the candidate is the
      clean exact target and descends from the expected commit, whether stable and
      port and pid checks pass, the stable identity, whether the canonical worktree is clean,
      and whether some other worktree has the dev branch checked out. */
  datatype Observation = Observation(
    candidateExact: bool, quiet: bool, stable: nat, clean: bool, devElsewhere: bool)

  datatype Call = Call(phase: Phase, resume: Option<Receipt>, seen: Observation, crash: bool)

  datatype Outcome = Refused | Crashed | Issued(receipt: Receipt)

  datatype Step = Step(git: Git, outcome: Outcome)

  predicate WorktreesAllowed(phase: Phase, branch: Branch, devElsewhere: bool) {
    && !devElsewhere
    && (phase.Cas? ==> !branch.OnDev?)
  }

  predicate ResumeAllowed(c: Call, expected: Commit, target: Commit) {
    && (c.resume.Some? ==>
          && c.resume.value.expected == expected && c.resume.value.target == target
          && c.resume.value.stable == c.seen.stable)
    && (c.phase.Cas? ==> c.resume.Some? && !c.resume.value.stage.AttachedStage?)
    && (c.phase.Attach? ==> c.resume.Some? && !c.resume.value.stage.DetachedStage?)
  }

  predicate Preflight(g: Git, c: Call, expected: Commit, target: Commit) {
    && c.seen.candidateExact && c.seen.quiet
    && WorktreesAllowed(c.phase, g.branch, c.seen.devElsewhere)
    && ResumeAllowed(c, expected, target)
  }

  function Issue(c: Call, stage: Stage, status: Status, pre: Git, post: Git,
                 expected: Commit, target: Commit): Outcome
  {
    Issued(Receipt(stage, status, expected, target, c.seen.stable, pre, post))
  }

  function DetachStep(g: Git, c: Call, expected: Commit, target: Commit): Step {
    if g.branch.Detached? && g.head == expected && g.ref == expected then
      if c.resume.Some? && c.resume.value.stage.DetachedStage? then
        Step(g, Issue(c, DetachedStage, IdempotentDetached, g, g, expected, target))
      else Step(g, Refused)
    else if g == Git(OnDev, expected, expected) && c.seen.clean then
      var g' := g.(branch := Detached);
      Step(g', if c.crash then Crashed else Issue(c, DetachedStage, NewlyDetached, g, g', expected, target))
    else Step(g, Refused)
  }

  function CasStep(g: Git, c: Call, expected: Commit, target: Commit): Step {
    if !g.branch.Detached? || g.head != expected || !c.seen.clean then Step(g, Refused)
    else if g.ref == target then
      Step(g, Issue(c, CasStage, IdempotentSwapped, g, g, expected, target))
    else if g.ref == expected then
      var g' := g.(ref := target);
      Step(g', if c.crash then Crashed else Issue(c, CasStage, NewlySwapped, g, g', expected, target))
    else Step(g, Refused)
  }

  function AttachStep(g: Git, c: Call, expected: Commit, target: Commit): Step {
    if g == Git(OnDev, target, target) then
      Step(g, Issue(c, AttachedStage, IdempotentAttached, g, g, expected, target))
    else if g.branch.Detached? && g.head == expected && g.ref == target && c.seen.clean then
      var g' := Git(OnDev, g.ref, g.ref);
      Step(g', if c.crash then Crashed else Issue(c, AttachedStage, NewlyAttached, g, g', expected, target))
    else Step(g, Refused)
  }

  function AdoptStep(g: Git, c: Call, expected: Commit, target: Commit): Step {
    if !Preflight(g, c, expected, target) then Step(g, Refused)
    else
      match c.phase
      case Detach => DetachStep(g, c, expected, target)
      case Cas => CasStep(g, c, expected, target)
      case Attach => AttachStep(g, c, expected, target)
  }

  // ---------------------------------------------------------------- in place

  class Repository {
    const expected: Commit
    const target: Commit
    var branch: Branch
    var head: Commit
    var ref: Commit

    function View(): Git
      reads this
    {
      Git(branch, head, ref)
    }

    constructor (expected: Commit, target: Commit, g: Git)
      ensures View() == g && this.expected == expected && this.target == target
    {
      this.expected, this.target := expected, target;
      this.branch, this.head, this.ref := g.branch, g.head, g.ref;
    }

    method Adopt(c: Call) returns (outcome: Outcome)
      modifies this
      ensures Step(View(), outcome) == AdoptStep(old(View()), c, expected, target)
    {
      var pre := View();
      if !Preflight(pre, c, expected, target) {
        return Refused;
      }
      var stage, status;
      match c.phase {
        case Detach =>
          stage := DetachedStage;
          if branch.Detached? && head == expected && ref == expected {
            if c.resume.None? || !c.resume.value.stage.DetachedStage? {
              return Refused;
            }
            status := IdempotentDetached;
          } else if branch.OnDev? && head == expected && ref == expected && c.seen.clean {
            branch := Detached;
            status := NewlyDetached;
          } else {
            return Refused;
          }
        case Cas =>
          stage := CasStage;
          if !branch.Detached? || head != expected || !c.seen.clean {
            return Refused;
          }
          if ref == target {
            status := IdempotentSwapped;
          } else if ref == expected {
            ref := target;
            status := NewlySwapped;
          } else {
            return Refused;
          }
        case Attach =>
          stage := AttachedStage;
          if branch.OnDev? && head == target && ref == target {
            status := IdempotentAttached;
          } else if branch.Detached? && head == expected && ref == target && c.seen.clean {
            branch, head := OnDev, ref;
            status := NewlyAttached;
          } else {
            return Refused;
          }
      }
      if c.crash && (status.NewlyDetached? || status.NewlySwapped? || status.NewlyAttached?) {
        return Crashed;
      }
      outcome := Issue(c, stage, status, pre, View(), expected, target);
    }
  }
}
