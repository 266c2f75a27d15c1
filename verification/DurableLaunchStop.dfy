/** The stop command of durable launch: when a generation can get its stop receipt, and what follows. */
module DurableLaunchStop {
  import opened Common
  import opened DurableLaunch
  import opened DurableLaunchSafety
  import opened DurableLaunchAttempts
  import opened DurableLaunchQuiet
  import opened DurableLaunchRuns
  import opened DurableLaunchRecovery
  import opened DurableLaunchSuccession

  // ---------------------------------------------------------------- an interrupted stop

  /** A stop that sent its challenge and then ended without its receipt is never made up for: no later
      stop of the same generation is written in any run. */
  lemma {:induction false} HalfStopIsFinal(s: State, actions: seq<Action>, t: State, l: Launch)
    requires HalfStopped(s, l) && Reaches(s, actions, t)
    ensures HalfStopped(t, l)
    decreases |actions|
  {
    if actions != [] {
      match actions[0] {
        case Recovering(r) => HalfStopByRecovery(s, r, l);
        case Handshaking(h) => HalfStopByHandshake(s, h, l);
        case Stopping(x) => HalfStopByStop(s, x, l);
        case ByChild(pid, c) => HalfStopByChild(s, pid, c, l);
      }
      HalfStopIsFinal(Do(s, actions[0]), actions[1..], t, l);
    }
  }

  predicate HalfStopped(s: State, l: Launch) {
    && ChallengesOf(s, l) != {} && StopsOf(s, l) == {}
    && (s.operator.StopSelected? || s.operator.TermSent? ==> s.operator.launch != l)
  }

  /** Steps that take no challenge away and write no stop of this generation. */
  lemma HalfStopFrame(s: State, t: State, l: Launch)
    requires HalfStopped(s, l) && s.challenges <= t.challenges
    requires forall stop :: stop in t.stops - s.stops ==> stop.launch.of != l
    requires t.operator.StopSelected? || t.operator.TermSent? ==> t.operator.launch != l
    ensures HalfStopped(t, l)
  {
    var c :| c in ChallengesOf(s, l);
    assert c in ChallengesOf(t, l);
    assert StopsOf(t, l) <= StopsOf(s, l);
  }

  lemma HalfStopByRecovery(s: State, a: RecoveryAction, l: Launch)
    requires HalfStopped(s, l) && RecoveryEnabled(s, a)
    ensures HalfStopped(Recover(s, a), l)
  {
    RecoveryFrame(s, a);
    HalfStopFrame(s, Recover(s, a), l);
  }

  lemma HalfStopByHandshake(s: State, a: HandshakeAction, l: Launch)
    requires HalfStopped(s, l) && HandshakeEnabled(s, a)
    ensures HalfStopped(Handshake(s, a), l)
  {
    HalfStopFrame(s, Handshake(s, a), l);
  }

  lemma HalfStopByStop(s: State, a: StopAction, l: Launch)
    requires HalfStopped(s, l) && StopEnabled(s, a)
    ensures HalfStopped(StopStep(s, a), l)
  {
    if a.SelectForStop? {
      assert exists c :: c in ChallengesOf(s, l);
    }
    HalfStopFrame(s, StopStep(s, a), l);
  }

  lemma HalfStopByChild(s: State, pid: Pid, a: ChildAction, l: Launch)
    requires HalfStopped(s, l) && ChildEnabled(s, pid, a)
    ensures HalfStopped(ChildActs(s, pid, a), l)
  {
    HalfStopFrame(s, ChildActs(s, pid, a), l);
  }

  // ---------------------------------------------------------------- a stop that can be completed

  /** An exit receipt is of a launched generation whose process has ended. */
  predicate ExitsBuried(s: State) {
    forall e :: e in s.exits ==> Buried(s, e.launch.of)
  }

  lemma StepKeepsExitsBuried(s: State, a: Action)
    requires Linked(s) && ExitsBuried(s) && Enabled(s, a)
    ensures ExitsBuried(Do(s, a))
  {
    match a
    case Recovering(r) => RecoveryFrame(s, r);
    case Handshaking(h) => HandshakeKeepsExitsBuried(s, h);
    case Stopping(x) =>
    case ByChild(pid, c) => ChildKeepsExitsBuried(s, pid, c);
  }

  lemma HandshakeKeepsExitsBuried(s: State, a: HandshakeAction)
    requires Linked(s) && ExitsBuried(s) && HandshakeEnabled(s, a)
    ensures ExitsBuried(Handshake(s, a))
  {
    assert forall l :: l in s.launches ==> l.pid < s.nextPid;
  }

  lemma ChildKeepsExitsBuried(s: State, pid: Pid, a: ChildAction)
    requires Linked(s) && ExitsBuried(s) && ChildEnabled(s, pid, a)
    ensures ExitsBuried(ChildActs(s, pid, a))
  {
    assert ChildLinked(s, pid, s.children[pid]);
  }

  lemma {:induction false} ExitsBuriedAlways(s: State, actions: seq<Action>, t: State)
    requires Linked(s) && ExitsBuried(s) && QuietReaches(s, actions, t)
    ensures ExitsBuried(t)
    decreases |actions|
  {
    if actions != [] {
      StepKeepsLinked(s, actions[0]);
      StepKeepsExitsBuried(s, actions[0]);
      ExitsBuriedAlways(Do(s, actions[0]), actions[1..], t);
    }
  }

  /** The only launch receipt that names a serving child is the one it serves under. */
  lemma ServesUnder(s: State, l: Launch)
    requires Linked(s) && Ids(s) && OneLaunchEach(s) && l in s.launches && Serves(s, l.pid)
    ensures s.children[l.pid].step.launch == l
  {
    assert ChildLinked(s, l.pid, s.children[l.pid]);
    assert ChainLinked(s, l) && l.readiness.of in s.readinesses;
  }

  function TermSentTo(s: State, l: Launch): State {
    var c := Challenge(LaunchSha(l), s.nextNonce);
    s.(challenges := s.challenges + {c}, nextNonce := s.nextNonce + 1, operator := TermSent(l, c, s.exits))
  }

  lemma ReachesTermSent(s: State, l: Launch)
    requires s.operator.Idle? && StopEnabled(s, SelectForStop(l))
    ensures CanReach(s, TermSentTo(s, l)) && ChallengesOf(TermSentTo(s, l), l) == {TermSentTo(s, l).operator.challenge}
  {
    var selected := s.(operator := StopSelected(l));
    Step(s, Stopping(SelectForStop(l)));
    Then(s, selected, Stopping(SendTerm));
    assert Do(selected, Stopping(SendTerm)) == TermSentTo(s, l);
  }

  /** The challenged child writes its exit receipt and is gone, and the operator writes the stop receipt. */
  lemma TermSentReachesStop(s: State, l: Launch, e: Exit)
    requires s.operator.TermSent? && s.operator.launch == l && s.operator.exitsBefore == s.exits
    requires ChallengesOf(s, l) == {s.operator.challenge} && e !in s.exits
    requires e == Exit(LaunchSha(l), l.pid, Some(ChallengeSha(s.operator.challenge)))
    requires Serves(s, l.pid) && s.children[l.pid].step.launch == l && (forall pid :: pid in s.children ==> pid == l.pid)
    ensures exists u :: CanReach(s, u) && StopsOf(u, l) != {}
  {
    TheSole(ChallengesOf(s, l), s.operator.challenge);
    assert SoleChallenge(s, l) == Some(ChallengeSha(s.operator.challenge));
    Step(s, ByChild(l.pid, Exits));
    var gone := s.(exits := s.exits + {e}, children := s.children - {l.pid});
    assert Do(s, ByChild(l.pid, Exits)) == gone;
    assert gone.exits - s.exits == {e} && gone.children == map[];
    Then(s, gone, Stopping(WriteStop(e)));
    var stop := Stop(LaunchSha(l), ChallengeSha(s.operator.challenge), ExitSha(e), s.db);
    assert stop in StopsOf(Do(gone, Stopping(WriteStop(e))), l);
  }

  lemma CanSelect(s: State, l: Launch)
    requires Linked(s) && Terminals(s) && ExitsBuried(s) && s.operator.Idle? && l in s.launches && Serves(s, l.pid)
    requires ChallengesOf(s, l) == {}
    ensures StopEnabled(s, SelectForStop(l)) && StopsOf(s, l) == {}
  {
    forall c | c in s.challenges ensures c.launch.of != l {
      assert c !in ChallengesOf(s, l);
    }
  }

  lemma StopCanComplete(s: State, l: Launch)
    requires Linked(s) && Terminals(s) && ExitsBuried(s) && Ids(s) && OneLaunchEach(s)
    requires s.operator.Idle? && l in s.launches && Serves(s, l.pid) && ChallengesOf(s, l) == {}
    ensures exists u :: CanReach(s, u) && StopsOf(u, l) != {}
  {
    CanSelect(s, l);
    ServesUnder(s, l);
    ReachesTermSent(s, l);
    var t := TermSentTo(s, l);
    var e := Exit(LaunchSha(l), l.pid, Some(ChallengeSha(t.operator.challenge)));
    assert e !in s.exits;
    TermSentReachesStop(t, l, e);
    var u :| CanReach(t, u) && StopsOf(u, l) != {};
    Along(s, t, u);
  }

  lemma ServingHasNoStop(s: State, l: Launch)
    requires Terminals(s) && Serves(s, l.pid)
    ensures StopsOf(s, l) == {}
  {
    forall stop | stop in s.stops ensures stop.launch.of != l {
      assert Buried(s, stop.launch.of);
    }
  }

  /** Stop, exact extent: after every quiet run a serving generation can get its stop receipt, by some
      later run with any crashes at all, exactly when it was never challenged before. */
  lemma StoppableExactlyWhen(s: State, actions: seq<Action>, t: State, l: Launch)
    requires Initial(s) && QuietReaches(s, actions, t) && t.operator.Idle? && l in t.launches && Serves(t, l.pid)
    ensures (exists u :: CanReach(t, u) && StopsOf(u, l) != {}) <==> ChallengesOf(t, l) == {}
  {
    QuietAlways(s, actions, t);
    ExitsBuriedAlways(s, actions, t);
    ServingStoppable(t, l);
  }

  lemma ServingStoppable(t: State, l: Launch)
    requires Linked(t) && Terminals(t) && ExitsBuried(t) && Ids(t) && OneLaunchEach(t)
    requires t.operator.Idle? && l in t.launches && Serves(t, l.pid)
    ensures (exists u :: CanReach(t, u) && StopsOf(u, l) != {}) <==> ChallengesOf(t, l) == {}
  {
    if ChallengesOf(t, l) == {} {
      StopCanComplete(t, l);
    } else {
      ServingHasNoStop(t, l);
      forall u | CanReach(t, u) ensures StopsOf(u, l) == {} {
        var more :| Reaches(t, more, u);
        HalfStopIsFinal(t, more, u, l);
      }
    }
  }

  /** An operator that dies after its challenge leaves exactly that behind. */
  lemma HalfStopIsReached(s: State, l: Launch)
    requires s.operator.Idle? && StopEnabled(s, SelectForStop(l))
    ensures exists u :: CanReach(s, u) && HalfStopped(u, l)
  {
    ReachesTermSent(s, l);
    var sent := TermSentTo(s, l);
    Then(s, sent, Stopping(OperatorDies));
    var u := Do(sent, Stopping(OperatorDies));
    assert sent.operator.challenge in ChallengesOf(u, l);
    assert StopsOf(s, l) == {};
    assert StopsOf(u, l) == {};
  }

  // ---------------------------------------------------------------- after a stop

  /** A completed stop makes way: the generation it stopped, and no other, accounts for the database,
      whatever its server wrote, and the next launch can create its child. */
  lemma StopMakesWay(s: State, actions: seq<Action>, t: State, e: Exit)
    requires Initial(s) && QuietReaches(s, actions, t) && StopEnabled(t, WriteStop(e))
    requires t.children == map[] && t.lock.None?
    ensures var u := StopStep(t, WriteStop(e)); Accounting(u) == {t.operator.launch} && CanFork(u)
  {
    QuietAlways(s, actions, t);
    QuietStopMakesWay(t, e);
  }

  lemma QuietStopMakesWay(t: State, e: Exit)
    requires Quiet(t) && StopEnabled(t, WriteStop(e)) && t.children == map[] && t.lock.None?
    ensures var u := StopStep(t, WriteStop(e)); Accounting(u) == {t.operator.launch} && CanFork(u)
  {
    StopKeepsQuiet(t, WriteStop(e));
    StoppedMakesWay(t, e);
  }

  lemma StoppedMakesWay(t: State, e: Exit)
    requires Phase(t) && OperatorLinked(t) && OperatorGate(t) && StopEnabled(t, WriteStop(e))
    requires t.children == map[] && t.lock.None?
    requires var u := StopStep(t, WriteStop(e));
      Traced(u) && Terminals(u) && OneLaunchEach(u) && Ordered(u) && PastRecorded(u)
    ensures var u := StopStep(t, WriteStop(e)); Accounting(u) == {t.operator.launch} && CanFork(u)
  {
    StopIsOfLatest(t, e);
    StopAccounts(t, e);
    StoppedCanBeFollowed(StopStep(t, WriteStop(e)), t.operator.launch);
  }

  lemma StopIsOfLatest(s: State, e: Exit)
    requires Phase(s) && StopEnabled(s, WriteStop(e)) && s.children == map[] && s.lock.None?
    ensures var u := StopStep(s, WriteStop(e)); Latest(u, s.operator.launch.id) && AtRest(u)
  {
  }

  lemma StoppedCanBeFollowed(s: State, l: Launch)
    requires Traced(s) && Terminals(s) && OneLaunchEach(s) && Ordered(s) && PastRecorded(s) && AtRest(s)
    requires l in s.launches && Latest(s, l.id) && AccountsFor(s, l)
    ensures Accounting(s) == {l} && CanFork(s)
  {
    OnlyLatestMayAccount(s, l);
    ScanReducesToAccounting(s);
    LaunchReachesFork(s);
  }

  lemma StopAccounts(s: State, e: Exit)
    requires OperatorLinked(s) && OperatorGate(s) && StopEnabled(s, WriteStop(e))
    ensures var u := StopStep(s, WriteStop(e)); AccountsFor(u, s.operator.launch) && s.operator.launch in u.launches
  {
    var l := s.operator.launch;
    var u := StopStep(s, WriteStop(e));
    var stop := Stop(LaunchSha(l), ChallengeSha(s.operator.challenge), ExitSha(e), s.db);
    assert StopsOf(u, l) == {stop};
  }
}
