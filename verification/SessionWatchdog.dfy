/** AI session life cycle (agent/ai_lifecycle.py): the worker's watchdog against output lines, deadline
    extensions, kills and clean-up in any order.  Times are seconds as reals; a sleep is exact and
    every other step takes no time. */
module SessionWatchdog {
  import opened Common

  datatype Status = Running | Completed | Failed | Killed | Timeout

  /** Limits in seconds, all set from the environment. */
  datatype Limits = Limits(max: int, hang: int, coordinatorHang: int)

  datatype Session = Session(
    pid: nat, startedAt: real, lastHeartbeat: real, timeoutSec: int, coordinator: bool, status: Status)

  datatype Reason = Exited | MaxRuntime | Hung

  const POLL := 0.5

  /** The requested timeout, or the limit if none is requested, and never above the limit. */
  function Cap(limits: Limits, s: Session): int {
    if s.timeoutSec == 0 || s.timeoutSec > limits.max then limits.max else s.timeoutSec
  }

  function Window(limits: Limits, s: Session): int {
    if s.coordinator then limits.coordinatorHang else limits.hang
  }

  /** What one poll of the watchdog decides. */
  function PollVerdict(limits: Limits, s: Session, now: real, exited: bool): Option<Reason> {
    if exited then Some(Exited)
    else if now - s.startedAt > Cap(limits, s) as real then Some(MaxRuntime)
    else if now - s.lastHeartbeat > Window(limits, s) as real then Some(Hung)
    else None
  }

  /** Whatever the timeout asked for: an ended process is seen as such; otherwise the run is too long when it is
      past the limit or past the requested timeout, and otherwise hung when it was quiet for longer
      than its role's window. */
  lemma PollExactly(limits: Limits, s: Session, now: real, exited: bool)
    ensures var v := PollVerdict(limits, s, now, exited);
      var tooLong := now - s.startedAt > limits.max as real
        || (s.timeoutSec != 0 && now - s.startedAt > s.timeoutSec as real);
      var quiet := now - s.lastHeartbeat > (if s.coordinator then limits.coordinatorHang else limits.hang) as real;
      && (v == Some(Exited) <==> exited)
      && (v == Some(MaxRuntime) <==> !exited && tooLong)
      && (v == Some(Hung) <==> !exited && !tooLong && quiet)
      && (v == None <==> !exited && !tooLong && !quiet)
  {
  }

  function AtLeastZero(x: int): real { if x < 0 then 0.0 else x as real }

  /** The watchdog loop against any process and any heartbeats: it stops at the first poll that has a
      verdict, and no later than one poll after the cap. */
  method Watch(limits: Limits, s: Session, exited: nat -> bool, heartbeat: nat -> real)
    returns (reason: Reason, polls: nat)
    ensures PollVerdict(limits, s.(lastHeartbeat := heartbeat(polls)), s.startedAt + 0.5 * polls as real, exited(polls))
      == Some(reason)
    ensures forall k: nat :: k < polls ==>
      PollVerdict(limits, s.(lastHeartbeat := heartbeat(k)), s.startedAt + 0.5 * k as real, exited(k)) == None
    ensures polls > 0 ==> 0.5 * (polls - 1) as real <= limits.max as real
    ensures polls > 0 && s.timeoutSec != 0 ==> 0.5 * (polls - 1) as real <= s.timeoutSec as real
  {
    var now := s.startedAt;
    polls := 0;
    while true
      invariant now == s.startedAt + POLL * polls as real
      invariant forall k: nat :: k < polls ==>
        PollVerdict(limits, s.(lastHeartbeat := heartbeat(k)), s.startedAt + POLL * k as real, exited(k)) == None
      invariant polls > 0 ==> now - POLL - s.startedAt <= Cap(limits, s) as real
      decreases 2.0 * (AtLeastZero(Cap(limits, s)) + s.startedAt + POLL - now)
    {
      if exited(polls) {
        return Exited, polls;
      }
      if now - s.startedAt > Cap(limits, s) as real {
        return MaxRuntime, polls;
      }
      if now - heartbeat(polls) > Window(limits, s) as real {
        return Hung, polls;
      }
      now, polls := now + POLL, polls + 1;
    }
  }

  // ---------------------------------------------------------------- the session table

  /** Sessions as the manager holds them, and the process groups that still take a signal. */
  class SessionManager {
    var sessions: map<string, Session>
    var signalable: set<nat>

    constructor ()
      ensures sessions == map[] && signalable == {}
    {
      sessions, signalable := map[], {};
    }

    method KillSession(id: string) returns (killed: bool)
      modifies this`sessions
      ensures killed <==> id in old(sessions) && old(sessions)[id].pid != 0 && old(sessions)[id].pid in signalable
      ensures sessions == if killed then old(sessions)[id := old(sessions)[id].(status := Killed)] else old(sessions)
    {
      if id !in sessions || sessions[id].pid == 0 {
        return false;
      }
      killed := sessions[id].pid in signalable;
      if killed {
        sessions := sessions[id := sessions[id].(status := Killed)];
      }
    }

    method ExtendDeadline(id: string, now: real)
      modifies this`sessions
      ensures sessions == if id in old(sessions) && old(sessions)[id].status == Running
        then old(sessions)[id := old(sessions)[id].(lastHeartbeat := now)] else old(sessions)
    {
      if id in sessions && sessions[id].status == Running {
        sessions := sessions[id := sessions[id].(lastHeartbeat := now)];
      }
    }

    method KillIfExpired(limits: Limits, id: string, now: real) returns (expired: bool)
      requires id in sessions
      modifies this`sessions
      ensures expired == Expired(limits, old(sessions)[id], now)
      ensures sessions == old(sessions)[id :=
        Swept(limits, old(sessions)[id], now, old(sessions)[id].pid in signalable)]
    {
      var s := sessions[id];
      expired := false;
      if s.status == Running {
        if now - s.startedAt > limits.max as real {
          var _ := KillSession(id);
          expired := true;
        } else if now - s.lastHeartbeat > limits.hang as real {
          var _ := KillSession(id);
          expired := true;
        }
      }
    }

    /** Every running session past a limit gets a kill, and only those; the count is of kills tried. */
    method CleanupExpired(limits: Limits, now: real) returns (killed: nat)
      modifies this`sessions
      ensures sessions == SweptBut(limits, old(sessions), {}, now, signalable)
      ensures killed == |ExpiredOf(limits, old(sessions), now)|
    {
      ghost var before := sessions;
      var rest := sessions.Keys;
      killed := 0;
      NothingSwept(limits, before, now, signalable);
      while rest != {}
        invariant rest <= before.Keys
        invariant SweptSoFar(limits, before, rest, now, signalable, sessions, killed)
      {
        var id :| id in rest;
        SweptOneMore(limits, before, rest, now, signalable, sessions, killed, id);
        var expired := KillIfExpired(limits, id, now);
        killed := if expired then killed + 1 else killed;
        rest := rest - {id};
      }
      AllSwept(limits, before, now, signalable, sessions, killed);
    }
  }

  /** A sweep kills exactly the running session that is past the limit or was quiet for longer than the general
      window, if its process takes the signal. */
  lemma SweptExactly(limits: Limits, s: Session, now: real, signalled: bool)
    ensures var late := now - s.startedAt > limits.max as real || now - s.lastHeartbeat > limits.hang as real;
      && (Expired(limits, s, now) <==> s.status == Running && late)
      && Swept(limits, s, now, signalled)
         == if s.status == Running && late && s.pid != 0 && signalled then s.(status := Killed) else s
  {
  }

  /** All sessions but the given ones, swept. */
  function SweptBut(limits: Limits, sessions: map<string, Session>, rest: set<string>, now: real, signalable: set<nat>)
    : (r: map<string, Session>)
  {
    map id | id in sessions ::
      if id in rest then sessions[id] else Swept(limits, sessions[id], now, sessions[id].pid in signalable)
  }

  /** The sweep has been through all sessions but the given ones. */
  ghost predicate SweptSoFar(limits: Limits, before: map<string, Session>, rest: set<string>, now: real,
                             signalable: set<nat>, sessions: map<string, Session>, killed: nat)
  {
    sessions == SweptBut(limits, before, rest, now, signalable) && killed == |ExpiredOf(limits, before, now) - rest|
  }

  lemma NothingSwept(limits: Limits, before: map<string, Session>, now: real, signalable: set<nat>)
    ensures SweptSoFar(limits, before, before.Keys, now, signalable, before, 0)
  {
    assert ExpiredOf(limits, before, now) - before.Keys == {};
  }

  lemma SweptOneMore(limits: Limits, before: map<string, Session>, rest: set<string>, now: real,
                     signalable: set<nat>, sessions: map<string, Session>, killed: nat, id: string)
    requires SweptSoFar(limits, before, rest, now, signalable, sessions, killed) && id in rest && id in before
    ensures id in sessions && sessions[id] == before[id]
    ensures SweptSoFar(limits, before, rest - {id}, now, signalable,
                       sessions[id := Swept(limits, before[id], now, before[id].pid in signalable)],
                       if Expired(limits, before[id], now) then killed + 1 else killed)
  {
    OneLess(ExpiredOf(limits, before, now), rest, id);
  }

  lemma AllSwept(limits: Limits, before: map<string, Session>, now: real, signalable: set<nat>,
                 sessions: map<string, Session>, killed: nat)
    requires SweptSoFar(limits, before, {}, now, signalable, sessions, killed)
    ensures sessions == SweptBut(limits, before, {}, now, signalable) && killed == |ExpiredOf(limits, before, now)|
  {
    assert ExpiredOf(limits, before, now) - {} == ExpiredOf(limits, before, now);
  }

  lemma OneLess<T>(s: set<T>, rest: set<T>, x: T)
    requires x in rest
    ensures |s - (rest - {x})| == |s - rest| + if x in s then 1 else 0
  {
    assert s - (rest - {x}) == (s - rest) + (if x in s then {x} else {});
  }

  function ExpiredOf(limits: Limits, sessions: map<string, Session>, now: real): set<string> {
    set id | id in sessions && Expired(limits, sessions[id], now)
  }

  function Extended(s: Session, now: real): Session {
    if s.status == Running then s.(lastHeartbeat := now) else s
  }

  predicate Expired(limits: Limits, s: Session, now: real) {
    s.status == Running && (now - s.startedAt > limits.max as real || now - s.lastHeartbeat > limits.hang as real)
  }

  function KillOf(s: Session, signalled: bool): Session {
    if s.pid != 0 && signalled then s.(status := Killed) else s
  }

  function Swept(limits: Limits, s: Session, now: real, signalled: bool): Session {
    if Expired(limits, s, now) then KillOf(s, signalled) else s
  }

  // ---------------------------------------------------------------- interleavings

  datatype Process = NotStarted | Alive | Gone(returnCode: int)

  datatype Worker =
    | Starting
    | Polling(next: real)
    | Ending(reason: Reason)
    | Finished

  /** One session, its process and its worker; beats is a history of every time the heartbeat
      clock was reset. */
  datatype State = State(
    now: real, session: Session, process: Process, worker: Worker, beats: seq<real>)

  datatype Action =
    | Elapse(seconds: real)
    | Spawn(pid: nat)
    | SpawnFails
    | Line
    | Extend
    | Exit(returnCode: int)
    | Poll
    | Kill(signalled: bool)
    | Cleanup(signalled: bool)
    | WaitGivesUp(signalled: bool)
    | Finish

  predicate Enabled(limits: Limits, s: State, a: Action) {
    match a
    case Elapse(d) =>
      d > 0.0 && !s.worker.Starting? && (s.worker.Polling? ==> s.now + d <= s.worker.next)
    case Spawn(pid) => s.worker.Starting? && pid > 0
    case SpawnFails => s.worker.Starting?
    case Line => !s.worker.Starting?
    case Extend => true
    case Exit(_) => s.process.Alive?
    case Poll => s.worker.Polling? && s.now == s.worker.next
    case Kill(_) => true
    case Cleanup(_) => true
    case WaitGivesUp(_) => s.session.status == Running && s.now - s.session.startedAt > (limits.max + 30) as real
    case Finish => s.worker.Ending? && (s.worker.reason.Exited? ==> s.process.Gone?)
  }

  function Do(limits: Limits, s: State, a: Action): State
    requires Enabled(limits, s, a)
  {
    match a
    case Elapse(d) => s.(now := s.now + d)
    case Spawn(pid) => s.(session := s.session.(pid := pid), process := Alive, worker := Polling(s.now))
    case SpawnFails => s.(session := s.session.(status := Failed), worker := Finished)
    case Line => s.(session := s.session.(lastHeartbeat := s.now), beats := s.beats + [s.now])
    case Extend =>
      s.(session := Extended(s.session, s.now),
         beats := if s.session.status == Running then s.beats + [s.now] else s.beats)
    case Exit(rc) => s.(process := Gone(rc))
    case Poll =>
      var verdict := PollVerdict(limits, s.session, s.now, s.process.Gone?);
      s.(worker := if verdict.Some? then Ending(verdict.value) else Polling(s.now + POLL))
    case Kill(signalled) => s.(session := KillOf(s.session, signalled))
    case Cleanup(signalled) => s.(session := Swept(limits, s.session, s.now, signalled))
    case WaitGivesUp(signalled) => s.(session := KillOf(s.session, signalled))
    case Finish =>
      var status := if !s.worker.reason.Exited? then Timeout
                    else if s.process.returnCode == 0 then Completed else Failed;
      s.(session := s.session.(status := status), worker := Finished)
  }

  predicate Initial(s: State) {
    && s.session.status == Running && s.session.pid == 0 && s.worker.Starting? && s.process.NotStarted?
    && s.session.startedAt == s.session.lastHeartbeat == s.now && s.beats == [s.now]
  }

  predicate Reaches(limits: Limits, s: State, actions: seq<Action>, t: State)
    decreases |actions|
  {
    if actions == [] then s == t
    else Enabled(limits, s, actions[0]) && Reaches(limits, Do(limits, s, actions[0]), actions[1..], t)
  }

  predicate Timed(limits: Limits, s: State) {
    && (s.worker.Starting? ==> s.now == s.session.startedAt)
    && (s.worker.Polling? ==>
          && s.now <= s.worker.next
          && (s.worker.next == s.session.startedAt || Watched(limits, s, s.worker.next - POLL)))
  }

  /** The poll at this time found neither the cap nor the hang window exceeded. */
  predicate Watched(limits: Limits, s: State, polled: real) {
    && polled - s.session.startedAt <= Cap(limits, s.session) as real
    && polled - s.session.lastHeartbeat <= Window(limits, s.session) as real
  }

  predicate Heard(s: State) {
    && s.beats != [] && s.session.lastHeartbeat == s.beats[|s.beats| - 1] <= s.now
    && s.session.startedAt == s.beats[0]
    && forall i, j :: 0 <= i <= j < |s.beats| ==> s.beats[i] <= s.beats[j]
  }

  predicate Kept(limits: Limits, s: State) {
    Timed(limits, s) && Heard(s) && (s.worker.Polling? || s.worker.Ending? ==> !s.process.NotStarted?)
  }

  lemma {:induction false} KeptAlways(limits: Limits, s: State, actions: seq<Action>, t: State)
    requires Kept(limits, s) && Reaches(limits, s, actions, t)
    ensures Kept(limits, t)
    ensures t.session.startedAt == s.session.startedAt && t.session.timeoutSec == s.session.timeoutSec
    decreases |actions|
  {
    if actions != [] {
      assert Kept(limits, Do(limits, s, actions[0]));
      KeptAlways(limits, Do(limits, s, actions[0]), actions[1..], t);
    }
  }

  /** Session cap: whatever lines, extensions, kills and clean-ups happen, the worker waits for its
      process no longer than one poll past the cap, and no longer than one poll past a quiet hang window. */
  lemma CapIsFinal(limits: Limits, s: State, actions: seq<Action>, t: State)
    requires Initial(s) && Reaches(limits, s, actions, t) && t.worker.Polling?
    ensures var elapsed := t.now - t.session.startedAt;
      && (elapsed <= 0.5 || elapsed <= limits.max as real + 0.5)
      && (t.session.timeoutSec != 0 ==> elapsed <= 0.5 || elapsed <= t.session.timeoutSec as real + 0.5)
    ensures var quiet := t.now - t.session.lastHeartbeat;
      quiet <= 0.5 || quiet <= (if t.session.coordinator then limits.coordinatorHang else limits.hang) as real + 0.5
  {
    KeptAlways(limits, s, actions, t);
  }

  /** A process is ended as hung only if every heartbeat there ever was is older than the window,
      and for running too long only if it is past the cap. */
  lemma TimeoutIsEarned(limits: Limits, s: State, actions: seq<Action>, t: State)
    requires Initial(s) && Reaches(limits, s, actions, t) && Enabled(limits, t, Poll)
    ensures var w := Do(limits, t, Poll).worker;
      var window := (if t.session.coordinator then limits.coordinatorHang else limits.hang) as real;
      var elapsed := t.now - t.session.startedAt;
      && (w == Ending(Hung) ==> forall i :: 0 <= i < |t.beats| ==> t.now - t.beats[i] > window)
      && (w == Ending(MaxRuntime) ==>
            elapsed > limits.max as real || (t.session.timeoutSec != 0 && elapsed > t.session.timeoutSec as real))
      && (w == Ending(Exited) <==> t.process.Gone?)
  {
    KeptAlways(limits, s, actions, t);
  }

  /** The waiting caller's own fallback never fires while the watchdog still watches. */
  lemma FallbackComesAfterWatchdog(limits: Limits, s: State, actions: seq<Action>, t: State)
    requires Initial(s) && Reaches(limits, s, actions, t) && limits.max >= 0
    requires Enabled(limits, t, WaitGivesUp(true))
    ensures !t.worker.Polling?
  {
    KeptAlways(limits, s, actions, t);
  }

  /** Clean-up would end a running session that its own watchdog, polling now, would let run. */
  predicate CleanupComesFirst(limits: Limits, s: Session, now: real) {
    && s.startedAt <= s.lastHeartbeat <= now
    && Expired(limits, s, now) && PollVerdict(limits, s, now, false) == None
  }

  /** Clean-up uses the general hang window for every role, so it comes before the watchdog exactly for a
      coordinator whose longer window is not yet over. */
  lemma CleanupBeforeWindow(limits: Limits, s: Session, now: real)
    requires PollVerdict(limits, s, now, false) == None
    ensures Expired(limits, s, now) <==>
      && s.status == Running && s.coordinator
      && limits.hang as real < now - s.lastHeartbeat <= limits.coordinatorHang as real
  {
  }

  /** That can happen at all exactly when the limits leave room for it. */
  lemma CleanupCanComeFirstExactlyWhen(limits: Limits)
    ensures (exists s, now :: CleanupComesFirst(limits, s, now)) <==>
      limits.hang < limits.coordinatorHang && limits.hang < limits.max && limits.coordinatorHang >= 0 && limits.max >= 0
  {
    if limits.hang < limits.coordinatorHang && limits.hang < limits.max && limits.coordinatorHang >= 0 && limits.max >= 0 {
      var last := if limits.coordinatorHang < limits.max then limits.coordinatorHang else limits.max;
      var s := Session(1, 0.0, 0.0, 0, true, Running);
      assert CleanupComesFirst(limits, s, last as real);
    }
  }

  /** The status after each action, and that only a line, or an extension of a running session, resets the
      heartbeat clock. */
  lemma StatusTells(limits: Limits, s: State, a: Action)
    requires Enabled(limits, s, a)
    ensures var t := Do(limits, s, a); var late :=
        s.now - s.session.startedAt > limits.max as real || s.now - s.session.lastHeartbeat > limits.hang as real;
      var killed := s.session.pid != 0
        && (a == Kill(true) || a == WaitGivesUp(true) || (a == Cleanup(true) && s.session.status == Running && late));
      && (a == SpawnFails ==> t.session.status == Failed)
      && (a == Finish && s.worker != Ending(Exited) ==> t.session.status == Timeout)
      && (a == Finish && s.worker == Ending(Exited) ==>
            t.session.status == if s.process == Gone(0) then Completed else Failed)
      && (a != SpawnFails && a != Finish ==> t.session.status == if killed then Killed else s.session.status)
      && t.session.lastHeartbeat == (if a == Line || (a == Extend && s.session.status == Running) then s.now
                                     else s.session.lastHeartbeat)
  {
  }

  /** A new session, waiting for its process; it can be spawned, and then runs, polls at once and is watched. */
  lemma NewSessionStarts(limits: Limits, timeoutSec: int, coordinator: bool, time: real, pid: nat)
    requires pid > 0
    ensures var s := State(time, Session(0, time, time, timeoutSec, coordinator, Running), NotStarted, Starting, [time]);
      && Initial(s) && Enabled(limits, s, Spawn(pid))
      && var t := Do(limits, s, Spawn(pid));
         && t == s.(session := s.session.(pid := pid), process := Alive, worker := Polling(time))
         && Enabled(limits, t, Poll)
  {
  }

  /** Extensions, kills and clean-ups may come at any time, and lines once a process was started; a process
      gets a positive id, and time does not pass a due poll. */
  lemma EnabledExactly(limits: Limits, s: State, signalled: bool, seconds: real, pid: nat)
    ensures Enabled(limits, s, Extend) && Enabled(limits, s, Kill(signalled)) && Enabled(limits, s, Cleanup(signalled))
    ensures Enabled(limits, s, Line) <==> s.worker != Starting
    ensures Enabled(limits, s, Spawn(pid)) <==> s.worker == Starting && pid != 0
    ensures Enabled(limits, s, Poll) <==> s.worker == Polling(s.now)
    ensures Enabled(limits, s, Elapse(seconds)) <==>
      seconds > 0.0 && s.worker != Starting && (s.worker.Polling? ==> s.now + seconds <= s.worker.next)
  {
  }

  /** The waiting caller gives up exactly on a session still running more than thirty seconds past the limit. */
  lemma GivesUpExactlyWhen(limits: Limits, s: State, signalled: bool)
    ensures Enabled(limits, s, WaitGivesUp(signalled)) <==>
      s.session.status == Running && s.now > s.session.startedAt + limits.max as real + 30.0
  {
  }

  /** A status that has left running never returns to it. */
  lemma {:induction false} NeverRunningAgain(limits: Limits, s: State, actions: seq<Action>, t: State)
    requires s.session.status != Running && Reaches(limits, s, actions, t)
    ensures t.session.status != Running
    decreases |actions|
  {
    if actions != [] {
      NeverRunningAgain(limits, Do(limits, s, actions[0]), actions[1..], t);
    }
  }

  /** Some run ends with another status than killed. */
  ghost predicate Replaceable(limits: Limits, s: State) {
    exists actions, t :: Reaches(limits, s, actions, t) && t.session.status != Killed
  }

  lemma ReplaceableNow(limits: Limits, s: State)
    requires s.session.status != Killed
    ensures Replaceable(limits, s)
  {
    assert Reaches(limits, s, [], s);
  }

  lemma ReplaceableAfter(limits: Limits, s: State, a: Action)
    requires Enabled(limits, s, a) && Replaceable(limits, Do(limits, s, a))
    ensures Replaceable(limits, s)
  {
    var rest, t :| Reaches(limits, Do(limits, s, a), rest, t) && t.session.status != Killed;
    assert ([a] + rest)[1..] == rest;
    assert Reaches(limits, s, [a] + rest, t);
  }

  lemma EndingReplaces(limits: Limits, s: State)
    requires s.worker.Ending? && !s.process.NotStarted?
    ensures Replaceable(limits, s)
  {
    var gone := if s.process.Alive? then Do(limits, s, Exit(1)) else s;
    ReplaceableNow(limits, Do(limits, gone, Finish));
    ReplaceableAfter(limits, gone, Finish);
    if s.process.Alive? {
      ReplaceableAfter(limits, s, Exit(1));
    }
  }

  lemma PollingReplaces(limits: Limits, s: State)
    requires s.worker.Polling? && s.now <= s.worker.next && !s.process.NotStarted?
    ensures Replaceable(limits, s)
  {
    var due := if s.now < s.worker.next then Do(limits, s, Elapse(s.worker.next - s.now)) else s;
    var gone := if due.process.Alive? then Do(limits, due, Exit(1)) else due;
    EndingReplaces(limits, Do(limits, gone, Poll));
    ReplaceableAfter(limits, gone, Poll);
    if due.process.Alive? {
      ReplaceableAfter(limits, due, Exit(1));
    }
    if s.now < s.worker.next {
      ReplaceableAfter(limits, s, Elapse(s.worker.next - s.now));
    }
  }

  lemma {:induction false} FinishedKeepsKilled(limits: Limits, s: State, actions: seq<Action>, t: State)
    requires s.worker.Finished? && s.session.status == Killed && Reaches(limits, s, actions, t)
    ensures t.session.status == Killed
    decreases |actions|
  {
    if actions != [] {
      FinishedKeepsKilled(limits, Do(limits, s, actions[0]), actions[1..], t);
    }
  }

  /** Killed is not final: until the worker has finished, some run replaces it by the worker's own
      verdict; after that, none does. */
  lemma KillIsFinalExactlyWhen(limits: Limits, s: State, actions: seq<Action>, t: State)
    requires Initial(s) && Reaches(limits, s, actions, t) && t.session.status == Killed
    ensures !Replaceable(limits, t) <==> t.worker.Finished?
  {
    KeptAlways(limits, s, actions, t);
    if t.worker.Finished? {
      forall more, u | Reaches(limits, t, more, u) ensures u.session.status == Killed {
        FinishedKeepsKilled(limits, t, more, u);
      }
    } else if t.worker.Starting? {
      ReplaceableNow(limits, Do(limits, t, SpawnFails));
      ReplaceableAfter(limits, t, SpawnFails);
    } else if t.worker.Polling? {
      PollingReplaces(limits, t);
    } else {
      EndingReplaces(limits, t);
    }
  }

  /** But killed is not final: when a killed process exits, the worker's own verdict replaces it. */
  lemma KilledIsReplaced(limits: Limits, s: State, returnCode: int)
    requires s.worker.Polling? && s.now == s.worker.next && s.process.Alive? && s.session.status == Killed
    ensures exists t :: (
      && Reaches(limits, s, [Exit(returnCode), Poll, Finish], t)
      && t.session.status == if returnCode == 0 then Completed else Failed)
  {
    var a := Do(limits, s, Exit(returnCode));
    var b := Do(limits, a, Poll);
    var t := Do(limits, b, Finish);
    assert Reaches(limits, t, [], t);
    assert [Finish][1..] == [] && Reaches(limits, b, [Finish], t);
    assert [Poll, Finish][1..] == [Finish] && Reaches(limits, a, [Poll, Finish], t);
    assert [Exit(returnCode), Poll, Finish][1..] == [Poll, Finish];
    assert Reaches(limits, s, [Exit(returnCode), Poll, Finish], t);
  }
}
