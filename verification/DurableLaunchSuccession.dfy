/** After a generation has ended: when a next one can be launched, and what blocks it for ever. */
module DurableLaunchSuccession {
  import opened DurableLaunch
  import opened DurableLaunchSafety
  import opened DurableLaunchAttempts
  import opened DurableLaunchQuiet
  import opened DurableLaunchRecovery
  import opened DurableLaunchRuns

  /** No operator at work, no launched process left and no lock. */
  predicate AtRest(s: State) {
    s.operator.Idle? && s.children == map[] && s.lock.None?
  }

  lemma LaunchReachesFork(s: State)
    requires AtRest(s) && ScanPasses(s)
    ensures CanFork(s)
  {
    assert LiveGenerations(s) == {};
    ReachesPrepared(s);
    assert HandshakeEnabled(Prepared(s), Fork);
  }

  /** Succession, exact extent, from any state at all: at rest another launch is possible exactly when
      the generation scan passes. */
  lemma LaunchableExactlyWhen(s: State)
    requires AtRest(s)
    ensures CanFork(s) <==> ScanPasses(s)
  {
    if ScanPasses(s) {
      LaunchReachesFork(s);
    } else {
      forall t | CanReach(s, t) ensures !HandshakeEnabled(t, Fork) {
        var actions :| Reaches(s, actions, t);
        BlockedForEver(s, actions, t);
      }
    }
  }

  /** After every quiet run only the accounting gate can refuse: there was no generation yet, or exactly
      one generation's launch receipt or proven stop accounts for the bytes the database has. */
  lemma NextLaunchExactlyWhen(s: State, actions: seq<Action>, t: State)
    requires Initial(s) && QuietReaches(s, actions, t) && AtRest(t)
    ensures CanFork(t) <==> OneAccounts(t)
  {
    QuietAlways(s, actions, t);
    ScanReducesToAccounting(t);
    LaunchableExactlyWhen(t);
  }

  /** The database is as this generation's launch receipt, or its stop receipt, says it was left. */
  predicate LeftAsRecorded(s: State, l: Launch) {
    l.dbAfter == s.db || exists stop :: stop in s.stops && stop.launch.of == l && stop.dbAfter == s.db
  }

  lemma AccountsWhenRecorded(s: State, l: Launch)
    requires Terminals(s)
    ensures AccountsFor(s, l) <==> LeftAsRecorded(s, l)
  {
    if stop :| stop in s.stops && stop.launch.of == l && stop.dbAfter == s.db {
      assert StopsOf(s, l) == {stop};
    } else if StoppedFor(s, l) {
      var stop :| stop in StopsOf(s, l);
      assert stop in s.stops && stop.launch.of == l;
    }
  }

  /** A generation that launched can be succeeded exactly when the database is as its launch or stop
      receipt says it was left. */
  lemma SucceededExactlyWhen(s: State, actions: seq<Action>, t: State, l: Launch)
    requires Initial(s) && QuietReaches(s, actions, t) && AtRest(t) && l in t.launches && Latest(t, l.id)
    ensures CanFork(t) <==> LeftAsRecorded(t, l)
  {
    QuietAlways(s, actions, t);
    OnlyLatestMayAccount(t, l);
    AccountsWhenRecorded(t, l);
    ScanReducesToAccounting(t);
    LaunchableExactlyWhen(t);
  }

  lemma OnlyLatestMayAccount(s: State, l: Launch)
    requires Traced(s) && OneLaunchEach(s) && Ordered(s) && l in s.launches && Latest(s, l.id)
    ensures Accounting(s) == if AccountsFor(s, l) then {l} else {}
    ensures OneAccounts(s) <==> AccountsFor(s, l)
  {
    forall m | m in s.launches && m != l ensures !AccountsFor(s, m) {
      OlderDoNotAccount(s, l, m);
    }
    assert Accounting(s) == if AccountsFor(s, l) then {l} else {};
  }

  lemma OlderDoNotAccount(s: State, l: Launch, m: Launch)
    requires Traced(s) && OneLaunchEach(s) && Ordered(s)
    requires l in s.launches && m in s.launches && m != l && Latest(s, l.id)
    ensures !AccountsFor(s, m)
  {
    assert ChainLinked(s, l) && l.readiness.of in s.readinesses;
    assert ChainLinked(s, m) && m.readiness.of in s.readinesses && m.pending.of in s.pendings;
    assert m.id < l.id;
    if StoppedFor(s, m) {
      var stop :| stop in StopsOf(s, m);
      assert stop.dbAfter < s.commits[l.id];
    }
  }

  /** A generation that changed the database and has ended, in whatever way, without a stop receipt is
      never succeeded, and nothing any operator does changes anything: scans begin and fail. */
  lemma WrittenThenLost(s: State, actions: seq<Action>, t: State, l: Launch, more: seq<Action>, u: State)
    requires Initial(s) && QuietReaches(s, actions, t) && AtRest(t) && l in t.launches && Latest(t, l.id)
    requires l.dbAfter != t.db && StopsOf(t, l) == {} && Reaches(t, more, u)
    ensures u == t.(operator := u.operator) && !CanFork(t)
  {
    SucceededExactlyWhen(s, actions, t, l);
    assert forall stop :: stop in t.stops && stop.launch.of == l ==> stop in StopsOf(t, l);
    LaunchableExactlyWhen(t);
    BlockedForEver(t, more, u);
  }
}
