/** The context store and its Redis mirror (agent/context_store.py). */
module MirrorStore {
  import opened Common

  datatype Status =
    | Pending | Processing | QaReview | QaPass | QaFail | Escalated | Accepted | Rejected | Archived

  type TaskId = string

  datatype Row = Row(payload: string, status: Status)

  /** A Redis hash: each field may be missing. */
  datatype Hash = Hash(payload: Option<string>, status: Option<Status>)

  datatype Store = Store(rows: map<TaskId, Row>, archived: map<TaskId, Row>, redis: map<TaskId, Hash>)

  datatype Error = UnknownTask | StateMismatch(actual: Status) | NotPermitted(allowed: set<Status>)

  datatype Event =
    | Save(id: TaskId, payload: string)
    | Transition(id: TaskId, from: Status, to: Status)
    | Archive(id: TaskId)

  function Allowed(from: Status): set<Status> {
    match from
    case Pending => {Processing}
    case Processing => {QaReview}
    case QaReview => {QaPass, QaFail}
    case QaPass => {Accepted, Archived}
    case QaFail => {Escalated, Archived}
    case Escalated => {Accepted, Rejected}
    case Accepted => {Archived}
    case Rejected => {Archived}
    case Archived => {}
  }

  function HashOf(redis: map<TaskId, Hash>, id: TaskId): Hash {
    if id in redis then redis[id] else Hash(None, None)
  }

  function Failure(s: Store, id: TaskId, from: Status, to: Status): Option<Error> {
    if id !in s.rows then Some(UnknownTask)
    else if s.rows[id].status != from then Some(StateMismatch(s.rows[id].status))
    else if to !in Allowed(from) then Some(NotPermitted(Allowed(from)))
    else None
  }

  function After(s: Store, e: Event): Store {
    match e
    case Save(id, payload) =>
      var status := if id in s.rows then s.rows[id].status else Pending;
      s.(rows := s.rows[id := Row(payload, status)],
         redis := s.redis[id := Hash(Some(payload), Some(Pending))])
    case Transition(id, from, to) =>
      if Failure(s, id, from, to).Some? then s
      else s.(rows := s.rows[id := s.rows[id].(status := to)],
              redis := s.redis[id := HashOf(s.redis, id).(status := Some(to))])
    case Archive(id) =>
      if id !in s.rows then s
      else Store(s.rows - {id}, s.archived[id := s.rows[id]], s.redis - {id})
  }

  function Run(events: seq<Event>): Store {
    if events == [] then Store(map[], map[], map[])
    else After(Run(events[..|events| - 1]), events[|events| - 1])
  }

  class ContextStore {
    var rows: map<TaskId, Row>
    var archived: map<TaskId, Row>
    var redis: map<TaskId, Hash>

    function View(): Store
      reads this
    {
      Store(rows, archived, redis)
    }

    constructor ()
      ensures View() == Run([])
    {
      rows, archived, redis := map[], map[], map[];
    }

    /** Fields that are not written keep their value. */
    method RedisHset(id: TaskId, payload: Option<string>, status: Option<Status>)
      modifies this`redis
      ensures redis == old(redis)[id := Hash(
        if payload.Some? then payload else HashOf(old(redis), id).payload,
        if status.Some? then status else HashOf(old(redis), id).status)]
    {
      var hash := HashOf(redis, id);
      if payload.Some? {
        hash := hash.(payload := payload);
      }
      if status.Some? {
        hash := hash.(status := status);
      }
      redis := redis[id := hash];
    }

    method SaveInput(id: TaskId, payload: string)
      modifies this
      ensures View() == After(old(View()), Save(id, payload))
    {
      if id in rows {
        rows := rows[id := rows[id].(payload := payload)];
      } else {
        rows := rows[id := Row(payload, Pending)];
      }
      RedisHset(id, Some(payload), Some(Pending));
    }

    method MoveTo(id: TaskId, from: Status, to: Status) returns (error: Option<Error>)
      modifies this
      ensures error == Failure(old(View()), id, from, to)
      ensures View() == After(old(View()), Transition(id, from, to))
    {
      if id !in rows {
        return Some(UnknownTask);
      }
      var actual := rows[id].status;
      if actual != from {
        return Some(StateMismatch(actual));
      }
      if to !in Allowed(from) {
        return Some(NotPermitted(Allowed(from)));
      }
      rows := rows[id := rows[id].(status := to)];
      RedisHset(id, None, Some(to));
      error := None;
    }

    method ArchiveTask(id: TaskId)
      modifies this
      ensures View() == After(old(View()), Archive(id))
    {
      if id !in rows {
        return;
      }
      archived := archived[id := rows[id]];
      rows := rows - {id};
      redis := redis - {id};
    }
  }

  // ---------------------------------------------------------------- agreement

  /** Event k saves the input of a task that has already left pending. */
  predicate LateSave(events: seq<Event>, k: nat, id: TaskId)
    requires k < |events|
  {
    var before := Run(events[..k]);
    events[k].Save? && events[k].id == id && id in before.rows && before.rows[id].status != Pending
  }

  /** Event k moves or archives this row. */
  predicate Rewrites(events: seq<Event>, k: nat, id: TaskId)
    requires k < |events|
  {
    var before := Run(events[..k]);
    && events[k].id == id
    && match events[k]
       case Save(_, _) => false
       case Transition(_, from, to) => Failure(before, id, from, to).None?
       case Archive(_) => id in before.rows
  }

  /** Some late save has not been followed by a transition or archive of the same task. */
  predicate Stale(events: seq<Event>, id: TaskId) {
    exists k: nat :: (k < |events| && LateSave(events, k, id)
      && forall j: nat :: k < j < |events| ==> !Rewrites(events, j, id))
  }

  lemma StaleStep(events: seq<Event>, e: Event, id: TaskId)
    ensures Stale(events + [e], id) <==>
      LateSave(events + [e], |events|, id) || (Stale(events, id) && !Rewrites(events + [e], |events|, id))
  {
    var longer := events + [e];
    forall k: nat | k < |events|
      ensures LateSave(longer, k, id) == LateSave(events, k, id) && Rewrites(longer, k, id) == Rewrites(events, k, id)
    {
      assert longer[..k] == events[..k];
    }
    if Stale(events, id) && !Rewrites(longer, |events|, id) {
      var k: nat :| k < |events| && LateSave(events, k, id)
        && forall j: nat :: k < j < |events| ==> !Rewrites(events, j, id);
      assert LateSave(longer, k, id);
    }
  }

  /** Mirror agreement: after every run, Redis and SQL hold the same tasks with the same payloads, and
      a task's two statuses agree exactly when it is not stale; while stale, Redis says pending. */
  lemma {:induction false} MirrorAgreesExactlyWhen(events: seq<Event>, id: TaskId)
    ensures var s := Run(events);
      && (id in s.rows <==> id in s.redis)
      && (id in s.rows ==>
            && s.redis[id].payload == Some(s.rows[id].payload)
            && (s.redis[id].status == Some(s.rows[id].status) <==> !Stale(events, id))
            && (Stale(events, id) ==> s.redis[id].status == Some(Pending)))
      && (id !in s.rows ==> !Stale(events, id))
    decreases |events|
  {
    if events != [] {
      var n := |events| - 1;
      var earlier, e := events[..n], events[n];
      assert events == earlier + [e];
      assert events[..n] == earlier;
      MirrorAgreesExactlyWhen(earlier, id);
      StaleStep(earlier, e, id);
      TransitionsMove(e);
    }
  }

  lemma TransitionsMove(e: Event)
    ensures e.Transition? && e.to in Allowed(e.from) ==> e.to != Pending
  {
  }

  // ---------------------------------------------------------------- how often a task can move

  function Rank(status: Status): nat {
    match status
    case Pending => 6
    case Processing => 5
    case QaReview => 4
    case QaFail => 3
    case QaPass => 2
    case Escalated => 2
    case Accepted => 1
    case Rejected => 1
    case Archived => 0
  }

  function Continue(s: Store, events: seq<Event>): Store
    decreases |events|
  {
    if events == [] then s else Continue(After(s, events[0]), events[1..])
  }

  predicate Moved(s: Store, e: Event, id: TaskId) {
    e.Transition? && e.id == id && Failure(s, id, e.from, e.to).None?
  }

  /** The successful transitions of one task in a run. */
  function Moves(s: Store, events: seq<Event>, id: TaskId): nat
    decreases |events|
  {
    if events == [] then 0
    else (if Moved(s, events[0], id) then 1 else 0) + Moves(After(s, events[0]), events[1..], id)
  }

  /** A move costs rank; nothing else but the archive changes the status. */
  lemma MoveCostsRank(s: Store, e: Event, id: TaskId)
    requires id in s.rows && !(e.Archive? && e.id == id)
    ensures id in After(s, e).rows
    ensures Moved(s, e, id) ==> Rank(After(s, e).rows[id].status) < Rank(s.rows[id].status)
    ensures !Moved(s, e, id) ==> After(s, e).rows[id].status == s.rows[id].status
  {
  }

  /** Every move costs rank, whatever is saved in between, so as long as its row lives a task moves
      at most six times. */
  lemma {:induction false} AtMostSixMoves(s: Store, events: seq<Event>, id: TaskId)
    requires id in s.rows && forall k :: 0 <= k < |events| && events[k].Archive? ==> events[k].id != id
    ensures id in Continue(s, events).rows
    ensures Moves(s, events, id) + Rank(Continue(s, events).rows[id].status) <= Rank(s.rows[id].status) <= 6
    decreases |events|
  {
    if events != [] {
      MoveCostsRank(s, events[0], id);
      AtMostSixMoves(After(s, events[0]), events[1..], id);
    }
  }

  /** The moves along a path of statuses. */
  function Walk(id: TaskId, path: seq<Status>): seq<Event>
    decreases |path|
  {
    if |path| < 2 then [] else [Transition(id, path[0], path[1])] + Walk(id, path[1..])
  }

  lemma {:induction false} WalkMoves(s: Store, id: TaskId, path: seq<Status>)
    requires id in s.rows && path != [] && s.rows[id].status == path[0]
    requires forall k :: 0 <= k < |path| - 1 ==> path[k + 1] in Allowed(path[k])
    ensures Moves(s, Walk(id, path), id) == |path| - 1
    decreases |path|
  {
    if |path| >= 2 {
      var e := Transition(id, path[0], path[1]);
      assert path[0 + 1] in Allowed(path[0]);
      assert Walk(id, path)[1..] == Walk(id, path[1..]);
      WalkMoves(After(s, e), id, path[1..]);
    }
  }

  /** Six is reached, from every store that has the row pending. */
  lemma SixMoves(s: Store, id: TaskId)
    requires id in s.rows && s.rows[id].status == Pending
    ensures exists events :: Moves(s, events, id) == 6
  {
    var path := [Pending, Processing, QaReview, QaFail, Escalated, Accepted, Archived];
    WalkMoves(s, id, path);
  }

  // ---------------------------------------------------------------- what rows and archive hold

  /** The transition table, pair by pair. */
  lemma AllowedExactly(from: Status, to: Status)
    ensures to in Allowed(from) <==>
      || (from == Pending && to == Processing) || (from == Processing && to == QaReview)
      || (from == QaReview && (to == QaPass || to == QaFail))
      || (from == QaPass && (to == Accepted || to == Archived))
      || (from == QaFail && (to == Escalated || to == Archived))
      || (from == Escalated && (to == Accepted || to == Rejected))
      || (from == Accepted && to == Archived) || (from == Rejected && to == Archived)
  {
  }

  /** A transition is refused for an unknown task first, then for another state than declared, then for a pair
      that is not in the table. */
  lemma FailureExactly(s: Store, id: TaskId, from: Status, to: Status)
    ensures var failure := Failure(s, id, from, to);
      && (failure == Some(UnknownTask) <==> id !in s.rows)
      && (failure.Some? && failure.value.StateMismatch? <==> id in s.rows && s.rows[id].status != from)
      && (failure == None <==> id in s.rows && s.rows[id].status == from && to in Allowed(from))
      && (failure.Some? && failure.value.StateMismatch? ==> failure.value.actual == s.rows[id].status)
      && (failure.Some? && failure.value.NotPermitted? ==> failure.value.allowed == Allowed(from))
  {
  }

  /** The last save of a task that no archive of it has followed. */
  predicate LiveSave(events: seq<Event>, k: nat, id: TaskId)
    requires k < |events|
  {
    && events[k].Save? && events[k].id == id
    && forall j :: k < j < |events| ==> !(events[j].Save? && events[j].id == id) && !(events[j].Archive? && events[j].id == id)
  }

  lemma LiveSaveStep(events: seq<Event>, e: Event, k: nat, id: TaskId)
    requires k <= |events|
    ensures LiveSave(events + [e], k, id) <==>
      if k == |events| then e.Save? && e.id == id
      else LiveSave(events, k, id) && !(e.Save? && e.id == id) && !(e.Archive? && e.id == id)
  {
    var longer := events + [e];
    if k < |events| {
      assert longer[k] == events[k] && longer[|events|] == e;
      assert forall j :: k < j < |events| ==> longer[j] == events[j];
    }
  }

  /** After every run a task has a row exactly when it was saved and not archived since, and the row's payload
      is that of the last save. */
  lemma {:induction false} RowHoldsLastSave(events: seq<Event>, id: TaskId)
    ensures id in Run(events).rows <==> exists k: nat :: k < |events| && SavedSince(events, k, id)
    ensures forall k: nat :: k < |events| && LiveSave(events, k, id) ==>
      id in Run(events).rows && Run(events).rows[id].payload == events[k].payload
    decreases |events|
  {
    if events != [] {
      var n := |events| - 1;
      var earlier, e := events[..n], events[n];
      assert events == earlier + [e];
      RowHoldsLastSave(earlier, id);
      forall k: nat | k <= n
        ensures LiveSave(events, k, id) <==>
          if k == n then e.Save? && e.id == id
          else LiveSave(earlier, k, id) && !(e.Save? && e.id == id) && !(e.Archive? && e.id == id)
        ensures SavedSince(events, k, id) <==>
          if k == n then e.Save? && e.id == id else SavedSince(earlier, k, id) && !(e.Archive? && e.id == id)
      {
        LiveSaveStep(earlier, e, k, id);
        SavedSinceStep(earlier, e, k, id);
      }
      if id in Run(events).rows && !(e.Save? && e.id == id) {
        var k: nat :| k < n && SavedSince(earlier, k, id);
        assert SavedSince(events, k, id);
      } else if id in Run(events).rows {
        assert SavedSince(events, n, id);
      }
    }
  }

  /** Event k saves the task and no archive of it follows. */
  predicate SavedSince(events: seq<Event>, k: nat, id: TaskId)
    requires k < |events|
  {
    && events[k].Save? && events[k].id == id
    && forall j :: k < j < |events| ==> !(events[j].Archive? && events[j].id == id)
  }

  lemma SavedSinceStep(events: seq<Event>, e: Event, k: nat, id: TaskId)
    requires k <= |events|
    ensures SavedSince(events + [e], k, id) <==>
      if k == |events| then e.Save? && e.id == id else SavedSince(events, k, id) && !(e.Archive? && e.id == id)
  {
    var longer := events + [e];
    if k < |events| {
      assert longer[k] == events[k] && longer[|events|] == e;
      assert forall j :: k < j < |events| ==> longer[j] == events[j];
    }
  }

  /** One event, task by task: a save keeps the status of an existing row; a permitted transition sets it, and
      the mirror's; an archive moves the row, as it is, into the archive; no other task is touched. */
  lemma AfterTells(s: Store, e: Event, id: TaskId)
    ensures var t := After(s, e);
      && (e.id != id ==>
            && (id in t.rows <==> id in s.rows) && (id in s.rows ==> t.rows[id] == s.rows[id])
            && (id in t.archived <==> id in s.archived) && (id in s.archived ==> t.archived[id] == s.archived[id])
            && (id in t.redis <==> id in s.redis) && (id in s.redis ==> t.redis[id] == s.redis[id]))
      && (e.Save? && e.id == id ==>
            && id in t.rows && t.rows[id].payload == e.payload && t.archived == s.archived
            && t.rows[id].status == (if id in s.rows then s.rows[id].status else Pending)
            && id in t.redis && t.redis[id] == Hash(Some(e.payload), Some(Pending)))
      && (e.Transition? && e.id == id ==>
            && t.archived == s.archived
            && if id in s.rows && s.rows[id].status == e.from && e.to in Allowed(e.from)
               then id in t.rows && t.rows[id] == Row(s.rows[id].payload, e.to) && id in t.redis
                 && t.redis[id].status == Some(e.to)
                 && t.redis[id].payload == (if id in s.redis then s.redis[id].payload else None)
               else t == s)
      && (e.Archive? && e.id == id ==>
            if id in s.rows
            then id !in t.rows && id !in t.redis && id in t.archived && t.archived[id] == s.rows[id]
            else t == s)
  {
  }
}
