/** The monitored CLI loop (agent/ai_invocation.py): heartbeats, one early progress check and a
    timeout, polled by a sleeping loop.  Times are seconds as reals; a sleep is
    exact and every other step takes no time. */
module MonitoredLoop {
  import opened Common

  datatype Ending = ProcessExited | TimedOut | HeartbeatFailed | NoProgress

  /** What one run did, with the time of every act. */
  datatype Log = Log(
    ending: Ending, endedAt: real, polls: nat, heartbeats: seq<real>, inspections: seq<real>)

  const SHORTEST_SLEEP := 0.01
  const LONGEST_SLEEP := 0.2

  function Min(a: real, b: real): real { if a <= b then a else b }

  function Max(a: real, b: real): real { if a >= b then a else b }

  function Deadline(started: real, timeout: int): real {
    started + (if timeout > 0 then timeout else 0) as real
  }

  /** Heartbeats start at once, are never closer than the interval, and each is sent less than
      one shortest sleep after it fell due. */
  predicate OnSchedule(beats: seq<real>, started: real, interval: real) {
    && (beats != [] ==> beats[0] == started)
    && forall i :: 0 <= i < |beats| - 1 ==>
         beats[i] + interval <= beats[i + 1] < beats[i] + interval + 0.01
  }

  /** All heartbeats sent so far answered, and the next one is not overdue by a shortest sleep. */
  predicate Beating(beats: seq<real>, nextBeat: real, now: real, started: real, interval: real,
                    healthy: nat -> bool)
  {
    && OnSchedule(beats, started, interval)
    && (forall i: nat :: i < |beats| ==> healthy(i))
    && now < nextBeat + 0.01
    && if beats == [] then now == nextBeat == started else nextBeat == beats[|beats| - 1] + interval
  }

  method SendHeartbeat(beats: seq<real>, nextBeat: real, now: real, started: real, interval: real,
                       healthy: nat -> bool)
    returns (answered: bool, sent: seq<real>, next: real)
    requires Beating(beats, nextBeat, now, started, interval, healthy) && interval > 0.0
    ensures answered ==> sent != [] && Beating(sent, next, now, started, interval, healthy) && now < next
    ensures !answered ==>
      && sent != [] && OnSchedule(sent, started, interval) && sent[|sent| - 1] == now
      && !healthy(|sent| - 1) && forall i: nat :: i < |sent| - 1 ==> healthy(i)
  {
    answered, sent, next := true, beats, nextBeat;
    if now >= nextBeat {
      sent := beats + [now];
      answered := healthy(|beats|);
      next := now + interval;
    }
  }

  /** The progress check is still due, or was done once on time, or was never asked for. */
  predicate Inspecting(due: Option<real>, inspections: seq<real>, now: real, started: real, early: real) {
    if due.Some? then
      early > 0.0 && due.value == started + early && inspections == [] && now < due.value + 0.01
    else if early == 0.0 then inspections == []
    else InspectedOnTime(inspections, started, early)
  }

  predicate InspectedOnTime(inspections: seq<real>, started: real, early: real) {
    |inspections| == 1 && started + early <= inspections[0] < started + early + 0.01
  }

  predicate VisibleBy(progressAt: Option<real>, time: real) {
    progressAt.Some? && progressAt.value <= time
  }

  method InspectProgress(due: Option<real>, inspections: seq<real>, now: real, started: real, early: real,
                         progressAt: Option<real>)
    returns (moving: bool, done: seq<real>, next: Option<real>)
    requires early >= 0.0 && Inspecting(due, inspections, now, started, early)
    requires inspections != [] ==> VisibleBy(progressAt, inspections[0])
    ensures moving ==> Inspecting(next, done, now, started, early) && (next.Some? ==> now < next.value)
    ensures moving ==> (done != [] ==> VisibleBy(progressAt, done[0]))
    ensures !moving ==>
      && InspectedOnTime(done, started, early) && done == [now] && early > 0.0
      && (progressAt.None? || progressAt.value > now)
  {
    moving, done, next := true, inspections, due;
    if due.Some? && now >= due.value {
      done := inspections + [now];
      moving := progressAt.Some? && progressAt.value <= now;
      next := None;
    }
  }

  /** Polls left before the process is seen to have ended, at most. */
  function Remaining(exitAt: real, now: real): nat {
    if now >= exitAt then 0 else ((exitAt - now) * 100.0).Floor + 1
  }

  /** Every poll after the first comes at least one shortest sleep after the one before. */
  predicate Paced(started: real, now: real, polls: nat) {
    polls as real <= (now - started) * 100.0
  }

  /** A sleep that ends at this time ends when something is due, or a shortest sleep from now with it overdue. */
  predicate Due(next: real, now: real, due: Option<real>) {
    due.Some? && (next == due.value || (next == now + 0.01 && due.value < next))
  }

  /** How long to sleep: to the next thing due, within the two bounds. */
  method Nap(now: real, deadline: Option<real>, progressDue: Option<real>, nextBeat: Option<real>,
             started: real, exitAt: real, polls: nat)
    returns (next: real)
    requires now < exitAt && Paced(started, now, polls)
    requires deadline.Some? ==> now < deadline.value
    requires progressDue.Some? ==> now < progressDue.value
    requires nextBeat.Some? ==> now < nextBeat.value
    ensures deadline.Some? ==> next < deadline.value + 0.01
    ensures progressDue.Some? ==> next < progressDue.value + 0.01
    ensures nextBeat.Some? ==> next < nextBeat.value + 0.01
    ensures now + 0.01 <= next <= now + 0.2
    ensures next < now + 0.2 ==> Due(next, now, deadline) || Due(next, now, progressDue) || Due(next, now, nextBeat)
    ensures Paced(started, next, polls + 1) && Remaining(exitAt, next) < Remaining(exitAt, now)
  {
    var wake := if deadline.Some? then deadline.value else now + LONGEST_SLEEP;
    if progressDue.Some? {
      wake := Min(wake, progressDue.value);
    }
    if nextBeat.Some? {
      wake := Min(wake, nextBeat.value);
    }
    next := now + Max(SHORTEST_SLEEP, Min(LONGEST_SLEEP, wake - now));
  }

  /** What a run promises about the times of its acts. */
  predicate WellTimed(log: Log, started: real, timeout: int, early: real, beating: bool, interval: real) {
    && OnSchedule(log.heartbeats, started, interval) && (!beating ==> log.heartbeats == [])
    && (log.heartbeats != [] ==>
          log.endedAt < log.heartbeats[|log.heartbeats| - 1] + interval + 0.01)
    && (log.inspections != [] ==> early > 0.0 && InspectedOnTime(log.inspections, started, early))
    && (early > 0.0 && log.endedAt >= started + early + 0.01 ==> log.inspections != [])
    && (timeout > 0 ==> log.endedAt < started + timeout as real + 0.01)
  }

  /** The same, act by act. */
  lemma WellTimedTells(log: Log, started: real, timeout: int, early: real, beating: bool, interval: real, i: nat)
    requires WellTimed(log, started, timeout, early, beating, interval)
    ensures !beating ==> log.heartbeats == []
    ensures log.heartbeats != [] ==> log.heartbeats[0] == started
    ensures i + 1 < |log.heartbeats| ==>
      log.heartbeats[i] + interval <= log.heartbeats[i + 1] < log.heartbeats[i] + interval + 0.01
    ensures log.heartbeats != [] ==> log.endedAt - log.heartbeats[|log.heartbeats| - 1] < interval + 0.01
    ensures |log.inspections| <= 1
    ensures log.inspections != [] ==> early > 0.0 && started + early <= log.inspections[0] < started + early + 0.01
    ensures log.inspections == [] && early > 0.0 ==> log.endedAt < started + early + 0.01
    ensures timeout > 0 ==> log.endedAt < started + timeout as real + 0.01
  {
  }

  /** `exitAt` is when the process ends by itself; `healthy(n)` is what the n-th heartbeat call
      answers; `progressAt` is when progress first becomes visible, if ever. */
  method Monitor(
    started: real, timeout: int, early: real, beating: bool, interval: real,
    exitAt: real, healthy: nat -> bool, progressAt: Option<real>)
    returns (log: Log)
    requires early >= 0.0 && (beating ==> interval > 0.0)
    ensures WellTimed(log, started, timeout, early, beating, interval)
    ensures beating && exitAt > started ==> log.heartbeats != []
    ensures log.ending.ProcessExited? <==> exitAt <= log.endedAt
    ensures log.ending.ProcessExited? && exitAt > started ==> log.endedAt <= exitAt + 0.2
    ensures log.ending.TimedOut? ==> timeout != 0 && (timeout > 0 ==> started + timeout as real <= log.endedAt)
    ensures timeout < 0 && exitAt > started ==> log.endedAt == started && log.polls == 1
    ensures timeout < 0 && exitAt > started ==>
      log.ending.TimedOut? || log.ending.HeartbeatFailed?
    ensures log.ending.HeartbeatFailed? <==> log.heartbeats != [] && !healthy(|log.heartbeats| - 1)
    ensures forall i: nat :: i < |log.heartbeats| - 1 ==> healthy(i)
    ensures log.ending.NoProgress? ==>
      log.inspections == [log.endedAt] && (progressAt.None? || progressAt.value > log.endedAt)
    ensures log.inspections != [] && (progressAt.None? || progressAt.value > log.inspections[0]) ==> log.ending.NoProgress?
    ensures timeout > 0 ==> log.polls <= 100 * timeout + 2
  {
    var now := started;
    var progressDue := if early > 0.0 then Some(started + early) else None;
    var nextBeat := started;
    var beats: seq<real> := [];
    var inspections: seq<real> := [];
    var polls := 0;
    while now < exitAt
      invariant Paced(started, now, polls)
      invariant timeout != 0 ==> now < Deadline(started, timeout) + 0.01
      invariant timeout < 0 ==> polls == 0
      invariant if beating then Beating(beats, nextBeat, now, started, interval, healthy) else beats == []
      invariant Inspecting(progressDue, inspections, now, started, early)
      invariant inspections != [] ==> VisibleBy(progressAt, inspections[0])
      invariant if polls == 0 then now == started else now <= exitAt + 0.2 && (beating ==> beats != [])
      decreases Remaining(exitAt, now)
    {
      if beating {
        var answered;
        answered, beats, nextBeat := SendHeartbeat(beats, nextBeat, now, started, interval, healthy);
        if !answered {
          return Log(HeartbeatFailed, now, polls + 1, beats, inspections);
        }
      }
      var moving;
      moving, inspections, progressDue := InspectProgress(progressDue, inspections, now, started, early, progressAt);
      if !moving {
        return Log(NoProgress, now, polls + 1, beats, inspections);
      }
      if timeout != 0 && now >= Deadline(started, timeout) {
        return Log(TimedOut, now, polls + 1, beats, inspections);
      }
      now := Nap(now, if timeout != 0 then Some(Deadline(started, timeout)) else None, progressDue,
                 if beating then Some(nextBeat) else None, started, exitAt, polls);
      polls := polls + 1;
    }
    return Log(ProcessExited, now, polls + 1, beats, inspections);
  }
}
