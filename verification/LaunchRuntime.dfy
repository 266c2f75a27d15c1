/** The launch side of the runtime directory (agent/cli.py), with its loops over receipt files. */
module LaunchRuntime {
  import opened Common
  import opened DurableLaunch
  import opened DurableLaunchRecovery
  import opened DurableLaunchGates

  datatype ScanResult =
    | Unclassifiable
    | PostimageMissingOrAmbiguous
    | MultipleDeadUnsealed
    | MultipleLive
    | Passed(unsealed: set<Launch>, live: set<Launch>)

  datatype Outcome = Refused | AlreadyRunning | Proceed

  datatype Attempt =
    | Unselected
    | Selected(pending: Pending, readinesses: set<Readiness>)

  /** A scan finds at most one unsealed generation and none that runs, and the port is free. */
  predicate MaySeal(s: State) {
    ScanPasses(s) && LiveGenerations(s) == {} && !Listening(s)
  }

  function GenerationSeals(s: State): set<Seal> {
    set l | l in DeadUnsealed(s) :: ChildAbsent(LaunchSha(l), s.db)
  }

  /** What may be sealed, and when: each dead generation without a record, once the scan has passed with no
      generation alive and nothing serving. */
  lemma SealingExactly(s: State, seal: Seal)
    ensures MaySeal(s) <==>
      && ScanPasses(s) && (forall l :: l in s.launches ==> l.pid !in s.children)
      && forall pid :: pid in s.children ==> !s.children[pid].step.Serving?
    ensures MaySeal(s) ==> (seal in GenerationSeals(s) <==>
      && seal.ChildAbsent? && seal.launch.of in s.launches && seal.dbNow == s.db
      && seal.launch.of.pid !in s.children && Unrecorded(s, seal.launch.of))
  {
    assert LiveGenerations(s) == {} <==> forall l :: l in s.launches ==> l.pid !in s.children by {
      assert forall l :: l in LiveGenerations(s) <==> l in s.launches && l.pid in s.children;
    }
    if MaySeal(s) && seal.ChildAbsent? {
      UnsealedExactly(s, seal.launch.of);
      assert LaunchSha(seal.launch.of) == seal.launch;
    }
  }

  class Runtime {
    var pendings: set<Pending>
    var readinesses: set<Readiness>
    var launches: set<Launch>
    var challenges: set<Challenge>
    var exits: set<Exit>
    var stops: set<Stop>
    var seals: set<Seal>
    var lock: Option<LaunchId>
    var db: nat
    var processes: map<Pid, Child>
    /** Counters and history, which no launch reads. */
    ghost const unread: State

    ghost function View(): State
      reads this
    {
      unread.(pendings := pendings, readinesses := readinesses, launches := launches,
              challenges := challenges, exits := exits, stops := stops, seals := seals,
              lock := lock, db := db, children := processes, operator := Idle)
    }

    constructor (before: State)
      requires before.operator.Idle?
      ensures View() == before
    {
      pendings, readinesses, launches := before.pendings, before.readinesses, before.launches;
      challenges, exits, stops := before.challenges, before.exits, before.stops;
      seals, lock, db, processes := before.seals, before.lock, before.db, before.children;
      unread := before;
    }

    /** Whether some process listens on the reserved port. */
    method FindListener() returns (found: bool)
      ensures found == Listening(View())
    {
      var rest := processes.Keys;
      found := false;
      while rest != {} && !found
        invariant rest <= processes.Keys
        invariant found ==> Listening(View())
        invariant forall pid :: pid in processes && processes[pid].step.Serving? ==> found || pid in rest
      {
        var pid :| pid in rest;
        found := processes[pid].step.Serving?;
        rest := rest - {pid};
      }
    }

    /** A completed launch whose pending and readiness receipts are there and agree with it. */
    method CheckChain(l: Launch) returns (valid: bool)
      ensures valid == ChainLinked(View(), l)
    {
      valid := l.pending.of in pendings && l.readiness.of in readinesses;
      if valid {
        valid := l.pending.of.id == l.id && l.readiness.of.id == l.id && l.readiness.of.pending == l.pending
          && l.readiness.of.pid == l.pid && l.readiness.of.dbAfter == l.dbAfter;
      }
    }

    /** The terminal receipts of one generation. */
    method ReadTerminal(l: Launch) returns (classified: bool, stopped: bool, sealed: bool)
      ensures classified == Classifiable(View(), l)
      ensures classified ==> ((stopped || sealed) == Terminal(View(), l))
      ensures stopped == StoppedFor(View(), l)
    {
      var own := set stop | stop in stops && stop.launch.of == l;
      var ownSeals := set seal | seal in seals && seal.ChildAbsent? && seal.launch.of == l;
      assert own == StopsOf(View(), l) && ownSeals == SealsOf(View(), l);
      stopped := false;
      if |own| == 1 {
        var stop :| stop in own;
        TheSole(own, stop);
        stopped := stop.exit.of in exits && stop.exit.of.launch == stop.launch
          && stop.exit.of.challenge == Some(stop.challenge);
        assert stopped == StopProven(View(), stop);
      }
      sealed := |ownSeals| == 1;
      classified := |own| <= 1 && |ownSeals| <= 1 && (own == {} || stopped);
    }

    /** Whether the receipts of one generation account for the bytes of the database. */
    method CheckPostimage(l: Launch) returns (accounts: bool)
      ensures accounts == AccountsFor(View(), l)
    {
      accounts := l.dbAfter == db;
      if !accounts {
        var _, stopped, _ := ReadTerminal(l);
        var own := set stop | stop in stops && stop.launch.of == l;
        assert own == StopsOf(View(), l);
        if stopped {
          var stop :| stop in own;
          TheSole(own, stop);
          accounts := stop.challenge.of in challenges && stop.dbAfter == db;
        }
      }
    }

    /** First pass over the completed launches: every chain and every dead generation is classified. */
    method ClassifyGenerations() returns (valid: bool, unsealed: set<Launch>)
      ensures valid <==>
        && (forall l :: l in launches ==> ChainLinked(View(), l))
        && (forall l :: l in Dead(View()) ==> Classifiable(View(), l))
      ensures valid ==> unsealed == DeadUnsealed(View())
    {
      var rest := launches;
      valid, unsealed := true, {};
      while rest != {}
        invariant rest <= launches
        invariant valid <==>
          && (forall l :: l in launches - rest ==> ChainLinked(View(), l))
          && (forall l :: l in launches - rest && !Alive(View(), l) ==> Classifiable(View(), l))
        invariant valid ==> forall l ::
          l in unsealed <==> l in launches - rest && !Alive(View(), l) && !Terminal(View(), l)
      {
        var l :| l in rest;
        var linked := CheckChain(l);
        if !linked {
          valid := false;
        } else if l.pid !in processes {
          var classified, stopped, sealed := ReadTerminal(l);
          if !classified {
            valid := false;
          } else if !stopped && !sealed {
            unsealed := unsealed + {l};
          }
        }
        rest := rest - {l};
      }
      assert launches - rest == launches;
    }

    /** Second pass: the generations that account for the database. */
    method MatchPostimages() returns (matching: set<Launch>)
      ensures matching == Accounting(View())
    {
      var rest := launches;
      matching := {};
      while rest != {}
        invariant rest <= launches
        invariant forall l :: l in matching <==> l in launches - rest && AccountsFor(View(), l)
      {
        var l :| l in rest;
        var accounts := CheckPostimage(l);
        if accounts {
          matching := matching + {l};
        }
        rest := rest - {l};
      }
    }

    /** The generation scan: it passes exactly when every gate does. */
    method ScanGenerations() returns (r: ScanResult)
      ensures r.Passed? <==> ScanPasses(View())
      ensures r.Passed? ==> r.unsealed == DeadUnsealed(View()) && r.live == LiveGenerations(View())
    {
      var valid, unsealed := ClassifyGenerations();
      if !valid {
        return Unclassifiable;
      }
      var matching := MatchPostimages();
      if launches != {} && |matching| != 1 {
        return PostimageMissingOrAmbiguous;
      }
      if |unsealed| > 1 {
        return MultipleDeadUnsealed;
      }
      var live := set l | l in launches && l.pid in processes;
      assert live == LiveGenerations(View());
      if |live| > 1 {
        return MultipleLive;
      }
      r := Passed(unsealed, live);
    }

    /** The pending receipt of the lock's attempt, if there is exactly one, and its readiness receipts. */
    method SelectAttempt(id: LaunchId) returns (r: Attempt)
      requires lock == Some(id)
      ensures r.Unselected? <==> |PendingsOf(View(), id)| != 1
      ensures r.Selected? ==> PendingsOf(View(), id) == {r.pending}
      ensures r.Selected? ==> r.readinesses == ReadinessOf(View(), r.pending)
    {
      var selected := set p | p in pendings && p.id == id;
      assert selected == PendingsOf(View(), id);
      if |selected| != 1 {
        return Unselected;
      }
      var p :| p in selected;
      TheSole(selected, p);
      var matches := set q | q in readinesses && q.pending.of == p;
      assert matches == ReadinessOf(View(), p);
      r := Selected(p, matches);
    }

    /** What the leftover lock means, unless the child is live or the exceptional branch is reached. */
    method DecideRecovery(id: LaunchId) returns (seal: Option<Seal>)
      requires lock == Some(id)
      ensures seal.Some? <==> VerdictOf(View()).PreimageRetry? || VerdictOf(View()).SealedPostimage?
      ensures seal.Some? ==> seal.value == RecoverySeal(VerdictOf(View()), db)
    {
      var attempt := SelectAttempt(id);
      if attempt.Unselected? {
        return None;
      }
      var p, rs := attempt.pending, attempt.readinesses;
      TheSole(PendingsOf(View(), id), p);
      var listening := FindListener();
      if listening || exists q :: q in rs && q.pid in processes {
        return None;
      }
      if db == p.dbBefore && rs == {} {
        return Some(PreimageRetryable(PendingSha(p), db));
      }
      if |rs| == 1 {
        var q :| q in rs;
        TheSole(rs, q);
        if db == q.dbAfter {
          return Some(PostimageChildAbsent(PendingSha(p), ReadinessSha(q), db));
        }
      }
      seal := None;
    }

    /** Crash recovery: the seal is written first, as a new file, and then the lock goes. */
    method RecoverLock() returns (ok: bool)
      modifies this`seals, this`lock
      ensures ok <==> old(lock.None? || Recoverable(View()))
      ensures View() == if old(lock.Some?) && ok
        then old(View()).(seals := old(seals) + {RecoverySeal(VerdictOf(old(View())), db)}, lock := None)
        else old(View())
    {
      if lock.None? {
        return true;
      }
      var seal := DecideRecovery(lock.value);
      if seal.None? || seal.value in seals {
        return false;
      }
      seals := seals + {seal.value};
      lock := None;
      ok := true;
    }

    /** After a scan that may seal: the generation seal, then the lock. */
    method SealAndRecover(unsealed: set<Launch>) returns (ok: bool)
      requires MaySeal(View()) && unsealed == DeadUnsealed(View())
      modifies this`seals, this`lock
      ensures ok <==> old(lock).None? || Recoverable(old(View()))
      ensures ok && old(lock).Some? ==> View() == Released(old(View())).(operator := Idle)
      ensures !ok || old(lock).None? ==> View() == old(View()).(seals := old(seals) + GenerationSeals(old(View())))
    {
      ghost var before := View();
      seals := seals + set l | l in unsealed :: ChildAbsent(LaunchSha(l), db);
      if lock.Some? {
        VerdictFrame(before, View());
      }
      ok := RecoverLock();
    }

    /** A launch up to the point where it may take the lock.  It proceeds exactly when no generation
        gate objects, nothing runs and a leftover lock is recoverable; all it ever changes are the
        seal of the one dead generation, the recovery seal and the lock. */
    method Approach() returns (r: Outcome)
      modifies this`seals, this`lock
      ensures r.Proceed? <==> MaySeal(old(View())) && (old(lock).None? || Recoverable(old(View())))
      ensures r.Proceed? && old(lock).Some? ==> View() == Released(old(View())).(operator := Idle)
      ensures r.Proceed? && old(lock).None? ==> View() == old(View()).(seals := old(seals) + GenerationSeals(old(View())))
      ensures !r.Proceed? ==> View() == old(View()).(
        seals := old(seals) + if MaySeal(old(View())) then GenerationSeals(old(View())) else {})
      ensures r.AlreadyRunning? ==> ScanPasses(View()) && exists l :: l in launches && Serves(View(), l.pid)
    {
      var scan := ScanGenerations();
      if !scan.Passed? {
        return Refused;
      }
      if scan.live != {} {
        var l :| l in scan.live;
        if processes[l.pid].step.Serving? {
          return AlreadyRunning;
        }
        return Refused;
      }
      var listening := FindListener();
      if listening {
        return Refused;
      }
      var ok := SealAndRecover(scan.unsealed);
      r := if ok then Proceed else Refused;
    }
  }
}
