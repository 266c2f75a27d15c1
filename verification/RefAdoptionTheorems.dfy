/** Safety and recovery of ref adoption over every sequence of phase calls. */
module RefAdoptionTheorems {
  import opened Common
  import opened RefAdoption

  /** The repository and the receipts the operator holds so far. */
  datatype State = State(git: Git, held: set<Receipt>)

  /** An operator can only present a receipt some earlier call printed. */
  predicate Honest(s: State, c: Call) {
    c.resume.Some? ==> c.resume.value in s.held
  }

  function Next(s: State, c: Call, expected: Commit, target: Commit): State {
    var step := AdoptStep(s.git, c, expected, target);
    State(step.git, if step.outcome.Issued? then s.held + {step.outcome.receipt} else s.held)
  }

  function After(s: State, calls: seq<Call>, expected: Commit, target: Commit): State {
    if calls == [] then s
    else Next(After(s, calls[..|calls| - 1], expected, target), calls[|calls| - 1], expected, target)
  }

  predicate AllHonest(s: State, calls: seq<Call>, expected: Commit, target: Commit) {
    forall i :: 0 <= i < |calls| ==> Honest(After(s, calls[..i], expected, target), calls[i])
  }

  // ---------------------------------------------------------------- safety, for any receipts

  /** One call moves the ref only from expected to target, only by compare-and-swap, and only
      while no worktree, canonical or other, has the branch checked out. */
  lemma RefMovesOnlyByCas(g: Git, c: Call, expected: Commit, target: Commit)
    ensures var g' := AdoptStep(g, c, expected, target).git;
      g'.ref != g.ref ==>
        && g.ref == expected && g'.ref == target && c.phase.Cas?
        && g.branch.Detached? && g'.branch.Detached? && !c.seen.devElsewhere
        && g'.head == g.head
  {
  }

  /** Over any sequence of calls, crashed or refused and with any receipts at all, the ref
      moves at most once: wherever it has left its first value it is the target,
      and stays there. */
  lemma {:induction false} RefMovesOnce(
    s: State, calls: seq<Call>, expected: Commit, target: Commit, i: nat, j: nat)
    requires i <= j <= |calls|
    ensures var ri := After(s, calls[..i], expected, target).git.ref;
            var rj := After(s, calls[..j], expected, target).git.ref;
      && (rj == ri || (ri == expected && rj == target))
      && (expected != target && ri == target ==> rj == target)
  {
    if i < j {
      RefMovesOnce(s, calls, expected, target, i, j - 1);
      assert calls[..j][..j - 1] == calls[..j - 1];
      RefMovesOnlyByCas(After(s, calls[..j - 1], expected, target).git, calls[j - 1], expected, target);
    } else {
      assert calls[..i] == calls[..j];
    }
  }

  // ---------------------------------------------------------------- what held receipts prove

  predicate Initial(s: State, expected: Commit) {
    s.git == Git(OnDev, expected, expected) && s.held == {}
  }

  predicate Holds(s: State, stage: Stage) {
    exists r :: r in s.held && r.stage == stage
  }

  /** The four places the protocol can be in, and the receipts each implies. */
  predicate Inv(s: State, expected: Commit, target: Commit) {
    && (|| s.git == Git(OnDev, expected, expected) || s.git == Git(Detached, expected, expected)
        || s.git == Git(Detached, expected, target) || s.git == Git(OnDev, target, target))
    && (forall r :: r in s.held ==> r.expected == expected && r.target == target)
    && (forall r :: r in s.held && !r.stage.DetachedStage? ==> s.git.ref == target)
    && (forall r :: r in s.held && r.stage.AttachedStage? ==> s.git.head == target)
    && (forall r :: r in s.held && r.stage.DetachedStage? && expected != target ==>
          s.git.branch.Detached? || s.git.head == target)
    && (s.git.ref != expected ==> Holds(s, DetachedStage))
    && (s.git.head != expected ==> Holds(s, CasStage))
    && (Holds(s, CasStage) ==> Holds(s, DetachedStage))
    && (Holds(s, AttachedStage) ==> Holds(s, CasStage))
  }

  lemma HeldGrows(s: State, c: Call, expected: Commit, target: Commit, stage: Stage)
    requires Holds(s, stage)
    ensures Holds(Next(s, c, expected, target), stage)
  {
    var r :| r in s.held && r.stage == stage;
    assert r in Next(s, c, expected, target).held;
  }

  lemma Witness(s: State, r: Receipt)
    requires r in s.held
    ensures Holds(s, r.stage)
  {
  }

  lemma NextKeepsInv(s: State, c: Call, expected: Commit, target: Commit)
    requires Inv(s, expected, target) && Honest(s, c)
    ensures Inv(Next(s, c, expected, target), expected, target)
  {
    var step := AdoptStep(s.git, c, expected, target);
    var s' := Next(s, c, expected, target);
    if Holds(s, DetachedStage) { HeldGrows(s, c, expected, target, DetachedStage); }
    if Holds(s, CasStage) { HeldGrows(s, c, expected, target, CasStage); }
    if Holds(s, AttachedStage) { HeldGrows(s, c, expected, target, AttachedStage); }
    if c.resume.Some? { Witness(s, c.resume.value); }
    if step.outcome.Issued? { Witness(s', step.outcome.receipt); }
    forall stage | Holds(s', stage) && !Holds(s, stage)
      ensures step.outcome.Issued? && step.outcome.receipt.stage == stage
    {
      var r :| r in s'.held && r.stage == stage;
      assert r !in s.held;
    }
  }

  lemma {:induction false} RunKeepsInv(s: State, calls: seq<Call>, expected: Commit, target: Commit)
    requires Initial(s, expected) && AllHonest(s, calls, expected, target)
    ensures Inv(After(s, calls, expected, target), expected, target)
  {
    if calls != [] {
      var n := |calls| - 1;
      forall i | 0 <= i < n
        ensures Honest(After(s, calls[..n][..i], expected, target), calls[..n][i])
      {
        assert calls[..n][..i] == calls[..i];
      }
      RunKeepsInv(s, calls[..n], expected, target);
      NextKeepsInv(After(s, calls[..n], expected, target), calls[n], expected, target);
    }
  }

  /** Holding an attached receipt proves head == ref == target, then and ever after. */
  lemma AttachedReceiptIsFinal(s: State, calls: seq<Call>, expected: Commit, target: Commit)
    requires Initial(s, expected) && AllHonest(s, calls, expected, target)
    requires Holds(After(s, calls, expected, target), AttachedStage)
    ensures var g := After(s, calls, expected, target).git;
      g.head == target && g.ref == target && (expected != target ==> g.branch.OnDev?)
  {
    RunKeepsInv(s, calls, expected, target);
  }

  // ---------------------------------------------------------------- recovery

  /** Every check outside the canonical worktree passes. */
  function Calm(phase: Phase, r: Option<Receipt>): Call {
    Call(phase, r, Observation(true, true, if r.Some? then r.value.stable else 0, true, false), false)
  }

  /** The operator's three-step plan from a state with at least one receipt. */
  lemma Recover(s: State, expected: Commit, target: Commit) returns (calls: seq<Call>)
    requires Inv(s, expected, target) && Holds(s, DetachedStage)
    ensures AllHonest(s, calls, expected, target)
    ensures Holds(After(s, calls, expected, target), AttachedStage)
  {
    if s.git == Git(OnDev, target, target) && Holds(s, CasStage) {
      var r :| r in s.held && r.stage == CasStage;
      calls := [Calm(Attach, Some(r))];
      One(s, calls[0], expected, target);
      Witness(Next(s, calls[0], expected, target),
              AdoptStep(s.git, calls[0], expected, target).outcome.receipt);
    } else {
      var r :| r in s.held && r.stage == DetachedStage;
      calls := [];
      var s0 := s;
      if s.git.branch.OnDev? {
        var c := Calm(Detach, None);
        calls := [c];
        s0 := Next(s, c, expected, target);
        One(s, c, expected, target);
      }
      var c1 := Calm(Cas, Some(r));
      var r1 := AdoptStep(s0.git, c1, expected, target).outcome.receipt;
      var s1 := Next(s0, c1, expected, target);
      var c2 := Calm(Attach, Some(r1));
      Witness(Next(s1, c2, expected, target), AdoptStep(s1.git, c2, expected, target).outcome.receipt);
      Snoc(s, calls, c1, expected, target);
      Snoc(s, calls + [c1], c2, expected, target);
      calls := calls + [c1] + [c2];
    }
  }

  lemma One(s: State, c: Call, expected: Commit, target: Commit)
    requires Honest(s, c)
    ensures After(s, [c], expected, target) == Next(s, c, expected, target)
    ensures AllHonest(s, [c], expected, target)
  {
    assert [c][..0] == [];
    assert After(s, [], expected, target) == s;
  }

  lemma Snoc(s: State, calls: seq<Call>, c: Call, expected: Commit, target: Commit)
    requires AllHonest(s, calls, expected, target) && Honest(After(s, calls, expected, target), c)
    ensures After(s, calls + [c], expected, target) == Next(After(s, calls, expected, target), c, expected, target)
    ensures AllHonest(s, calls + [c], expected, target)
  {
    var all := calls + [c];
    assert all[..|calls|] == calls;
    forall i | 0 <= i < |all| ensures Honest(After(s, all[..i], expected, target), all[i]) {
      assert i < |calls| ==> all[..i] == calls[..i];
    }
  }

  /** A crash between the detach and its receipt is never recoverable: with nothing to present,
      every honest call is refused for ever. */
  lemma {:induction false} LostDetachIsStuck(s: State, calls: seq<Call>, expected: Commit, target: Commit)
    requires s.git == Git(Detached, expected, expected) && s.held == {}
    requires AllHonest(s, calls, expected, target)
    ensures After(s, calls, expected, target) == s
  {
    if calls != [] {
      var n := |calls| - 1;
      forall i | 0 <= i < n
        ensures Honest(After(s, calls[..n][..i], expected, target), calls[..n][i])
      {
        assert calls[..n][..i] == calls[..i];
      }
      LostDetachIsStuck(s, calls[..n], expected, target);
    }
  }

  /** From a reachable state some honest continuation reaches an attached receipt exactly when
      the canonical worktree is still on the branch or a detached receipt is held. */
  lemma RecoverableExactlyWhen(s: State, expected: Commit, target: Commit)
    requires Inv(s, expected, target)
    ensures (exists calls :: AllHonest(s, calls, expected, target)
                             && Holds(After(s, calls, expected, target), AttachedStage))
            <==> (Holds(s, DetachedStage) || s.git.branch.OnDev?)
  {
    if Holds(s, DetachedStage) {
      var calls := Recover(s, expected, target);
    } else if s.git.branch.OnDev? {
      var c := Calm(Detach, None);
      var s' := Next(s, c, expected, target);
      NextKeepsInv(s, c, expected, target);
      Witness(s', AdoptStep(s.git, c, expected, target).outcome.receipt);
      var rest := Recover(s', expected, target);
      Prepend(s, c, rest, expected, target);
    } else if exists calls :: AllHonest(s, calls, expected, target)
                              && Holds(After(s, calls, expected, target), AttachedStage) {
      var calls :| AllHonest(s, calls, expected, target)
                   && Holds(After(s, calls, expected, target), AttachedStage);
      NothingHeld(s, expected, target);
      LostDetachIsStuck(s, calls, expected, target);
    }
  }

  lemma NothingHeld(s: State, expected: Commit, target: Commit)
    requires Inv(s, expected, target) && !Holds(s, DetachedStage) && s.git.branch.Detached?
    ensures s.git == Git(Detached, expected, expected) && s.held == {}
  {
    forall r | r in s.held ensures false {
      Witness(s, r);
    }
  }

  lemma {:induction false} Prepend(s: State, c: Call, rest: seq<Call>, expected: Commit, target: Commit)
    requires Honest(s, c) && AllHonest(Next(s, c, expected, target), rest, expected, target)
    ensures AllHonest(s, [c] + rest, expected, target)
    ensures After(s, [c] + rest, expected, target) == After(Next(s, c, expected, target), rest, expected, target)
  {
    var s' := Next(s, c, expected, target);
    if rest == [] {
      One(s, c, expected, target);
      assert [c] + rest == [c];
    } else {
      var n := |rest| - 1;
      forall i | 0 <= i < n ensures Honest(After(s', rest[..n][..i], expected, target), rest[..n][i]) {
        assert rest[..n][..i] == rest[..i];
      }
      Prepend(s, c, rest[..n], expected, target);
      assert rest == rest[..n] + [rest[n]];
      assert rest[..n] <= rest;
      Snoc(s, [c] + rest[..n], rest[n], expected, target);
      assert [c] + rest == [c] + rest[..n] + [rest[n]];
    }
  }
}
