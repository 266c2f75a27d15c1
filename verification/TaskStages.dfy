/** Task files moving between stage directories (agent/executor_api.py). */
module TaskStages {
  import opened Common

  type Name = string

  datatype Override = Override(reason: string, operator: Option<string>)

  /** A stored task: its own id if it has one, its prompt and start, and a manual override if any. */
  datatype Task = Task(id: Option<Name>, prompt: string, startedAt: Option<int>, override: Option<Override>)

  type Stage = map<Name, Task>

  /** Each stage directory by file stem. */
  datatype Board = Board(pending: Stage, processing: Stage, results: Stage, deadLetter: Stage)

  datatype Request =
    | Create(name: Name, task: Task)
    | Cancel(name: Name)
    | Retry(name: Name)
    | Takeover(name: Name, override: Override)
    | ManualFix(related: set<Name>, project: string, override: Override)
    | CleanupStale(now: int, maxAgeMinutes: int)

  datatype Response = Created | Existing | Done | NotFound

  function Lower(s: string): string {
    seq(|s|, i requires 0 <= i < |s| => if 'A' <= s[i] <= 'Z' then s[i] - 'A' + 'a' else s[i])
  }

  predicate OccursAt(text: string, word: string, i: int) {
    0 <= i <= |text| - |word| && text[i..i + |word|] == word
  }

  predicate Contains(text: string, word: string) {
    exists i | 0 <= i <= |text| - |word| :: OccursAt(text, word, i)
  }

  function IdOf(name: Name, t: Task): Name {
    if t.id.Some? then t.id.value else name
  }

  predicate IsRelated(name: Name, t: Task, r: Request)
    requires r.ManualFix?
  {
    IdOf(name, t) in r.related || (r.project != "" && Contains(Lower(t.prompt), Lower(r.project)))
  }

  /** No readable start time, or one at least the given number of minutes ago. */
  predicate IsStale(t: Task, now: int, maxAgeMinutes: int) {
    t.startedAt.None? || now - t.startedAt.value >= 60 * maxAgeMinutes
  }

  function Overridden(t: Task, override: Override): Task {
    t.(override := Some(override))
  }

  function RelatedOf(stage: Stage, r: Request): set<Name>
    requires r.ManualFix?
  {
    set name | name in stage && IsRelated(name, stage[name], r)
  }

  function StaleOf(stage: Stage, r: Request): set<Name>
    requires r.CleanupStale?
  {
    set name | name in stage && IsStale(stage[name], r.now, r.maxAgeMinutes)
  }

  function OverriddenOf(stage: Stage, names: set<Name>, override: Override): Stage
    requires names <= stage.Keys
  {
    map name | name in names :: Overridden(stage[name], override)
  }

  function Of(stage: Stage, names: set<Name>): Stage
    requires names <= stage.Keys
  {
    map name | name in names :: stage[name]
  }

  function After(b: Board, r: Request): Board {
    match r
    case Create(name, task) =>
      if name in b.pending || name in b.results || name in b.processing then b
      else b.(pending := b.pending[name := task])
    case Cancel(name) =>
      if name in b.pending then b.(pending := b.pending - {name})
      else b.(processing := b.processing - {name})
    case Retry(name) =>
      if name in b.results then b.(pending := b.pending[name := b.results[name]], results := b.results - {name})
      else if name in b.processing then
        b.(pending := b.pending[name := b.processing[name]], processing := b.processing - {name})
      else b
    case Takeover(name, override) =>
      if name in b.processing then
        b.(results := b.results[name := Overridden(b.processing[name], override)], processing := b.processing - {name})
      else if name in b.pending then
        b.(results := b.results[name := Overridden(b.pending[name], override)], pending := b.pending - {name})
      else b
    case ManualFix(_, _, override) =>
      var p, q := RelatedOf(b.pending, r), RelatedOf(b.processing, r);
      b.(pending := b.pending - p, processing := b.processing - q,
         results := b.results + OverriddenOf(b.pending, p, override) + OverriddenOf(b.processing, q, override))
    case CleanupStale(_, _) =>
      var q := StaleOf(b.processing, r);
      b.(processing := b.processing - q, deadLetter := b.deadLetter + Of(b.processing, q))
  }

  // ---------------------------------------------------------------- stage handlers

  /** A file is named after the id stored in it, when there is one. */
  predicate Named(stage: Stage) {
    forall name :: name in stage ==> IdOf(name, stage[name]) == name
  }

  class TaskDirectories {
    var pending: Stage
    var processing: Stage
    var results: Stage
    var deadLetter: Stage

    function View(): Board
      reads this
    {
      Board(pending, processing, results, deadLetter)
    }

    constructor (b: Board)
      ensures View() == b
    {
      pending, processing, results, deadLetter := b.pending, b.processing, b.results, b.deadLetter;
    }

    method CreateTask(name: Name, task: Task) returns (r: Response)
      modifies this
      ensures View() == After(old(View()), Create(name, task))
      ensures r == if name in old(pending) || name in old(processing) || name in old(results) then Existing else Created
    {
      if name in pending {
        return Existing;
      }
      if name in results {
        return Existing;
      }
      if name in processing {
        return Existing;
      }
      pending := pending[name := task];
      r := Created;
    }

    method CancelTask(name: Name) returns (r: Response)
      modifies this
      ensures View() == After(old(View()), Cancel(name))
      ensures r == if name in old(pending) || name in old(processing) then Done else NotFound
    {
      if name in pending {
        pending := pending - {name};
        return Done;
      }
      if name in processing {
        processing := processing - {name};
        return Done;
      }
      assert processing - {name} == processing;
      r := NotFound;
    }

    method RetryTask(name: Name) returns (r: Response)
      modifies this
      ensures View() == After(old(View()), Retry(name))
      ensures r == if name in old(results) || name in old(processing) then Done else NotFound
    {
      if name in results {
        pending := pending[name := results[name]];
        results := results - {name};
        return Done;
      }
      if name in processing {
        pending := pending[name := processing[name]];
        processing := processing - {name};
        return Done;
      }
      r := NotFound;
    }

    method TakeOver(name: Name, override: Override) returns (r: Response)
      modifies this
      ensures View() == After(old(View()), Takeover(name, override))
      ensures r == if name in old(processing) || name in old(pending) then Done else NotFound
    {
      if name in processing {
        results := results[name := Overridden(processing[name], override)];
        processing := processing - {name};
        return Done;
      }
      if name in pending {
        results := results[name := Overridden(pending[name], override)];
        pending := pending - {name};
        return Done;
      }
      r := NotFound;
    }

    /** One stage of a manual fix: related tasks leave it overridden, filed under their stored id. */
    method FixStage(stage: Stage, r: Request) returns (kept: Stage, moved: Stage)
      requires r.ManualFix? && Named(stage)
      ensures kept == stage - RelatedOf(stage, r)
      ensures moved == OverriddenOf(stage, RelatedOf(stage, r), r.override)
    {
      var rest := stage.Keys;
      kept, moved := stage, map[];
      while rest != {}
        invariant rest <= stage.Keys
        invariant forall n :: n in kept <==> n in stage && (n in rest || !IsRelated(n, stage[n], r))
        invariant forall n :: n in kept ==> kept[n] == stage[n]
        invariant forall n :: n in moved <==> n in stage && n !in rest && IsRelated(n, stage[n], r)
        invariant forall n :: n in moved ==> moved[n] == Overridden(stage[n], r.override)
      {
        var name :| name in rest;
        var task := stage[name];
        if IsRelated(name, task, r) {
          moved := moved[IdOf(name, task) := Overridden(task, r.override)];
          kept := kept - {name};
        }
        rest := rest - {name};
      }
    }

    /** One pass over pending, then one over processing. */
    method FixManually(r: Request)
      requires r.ManualFix? && Named(pending) && Named(processing)
      modifies this
      ensures View() == After(old(View()), r)
    {
      var kept, moved := FixStage(pending, r);
      pending, results := kept, results + moved;
      kept, moved := FixStage(processing, r);
      processing, results := kept, results + moved;
    }

    /** The stale files of a stage leave it. */
    method SweepStage(stage: Stage, now: int, maxAgeMinutes: int) returns (kept: Stage, swept: Stage)
      ensures var names := StaleOf(stage, CleanupStale(now, maxAgeMinutes));
        && kept == stage - names
        && swept == Of(stage, names)
    {
      var rest := stage.Keys;
      kept, swept := stage, map[];
      while rest != {}
        invariant rest <= stage.Keys
        invariant forall n :: n in kept <==> n in stage && (n in rest || !IsStale(stage[n], now, maxAgeMinutes))
        invariant forall n :: n in kept ==> kept[n] == stage[n]
        invariant forall n :: n in swept <==> n in stage && n !in rest && IsStale(stage[n], now, maxAgeMinutes)
        invariant forall n :: n in swept ==> swept[n] == stage[n]
      {
        var name :| name in rest;
        if IsStale(stage[name], now, maxAgeMinutes) {
          swept := swept[name := stage[name]];
          kept := kept - {name};
        }
        rest := rest - {name};
      }
    }

    method CleanUpStale(now: int, maxAgeMinutes: int)
      modifies this
      ensures View() == After(old(View()), CleanupStale(now, maxAgeMinutes))
    {
      var kept, swept := SweepStage(processing, now, maxAgeMinutes);
      processing, deadLetter := kept, deadLetter + swept;
    }
  }

  // ---------------------------------------------------------------- exclusivity and conservation

  /** Each task is in at most one of pending, processing and results. */
  predicate Exclusive(b: Board) {
    && b.pending.Keys !! b.processing.Keys
    && b.pending.Keys !! b.results.Keys
    && b.processing.Keys !! b.results.Keys
  }

  predicate AllNamed(b: Board) {
    Named(b.pending) && Named(b.processing) && Named(b.results) && Named(b.deadLetter)
  }

  predicate WellFormed(r: Request) {
    r.Create? ==> IdOf(r.name, r.task) == r.name
  }

  function Names(b: Board): set<Name> {
    b.pending.Keys + b.processing.Keys + b.results.Keys + b.deadLetter.Keys
  }

  function Run(b: Board, requests: seq<Request>): Board
    decreases |requests|
  {
    if requests == [] then b else Run(After(b, requests[0]), requests[1..])
  }

  lemma AfterKeepsExclusive(b: Board, r: Request)
    requires Exclusive(b)
    ensures Exclusive(After(b, r))
  {
  }

  lemma AfterKeepsNamed(b: Board, r: Request)
    requires AllNamed(b) && WellFormed(r)
    ensures AllNamed(After(b, r))
  {
  }

  /** A task as it was before any override. */
  function Origin(t: Task): Task { t.(override := None) }

  predicate Holds(stage: Stage, name: Name, origin: Task) {
    name in stage && Origin(stage[name]) == origin
  }

  /** Exactly one stage has a file with this name, and it holds this task. */
  predicate OnlyFile(b: Board, name: Name, origin: Task) {
    || (Holds(b.pending, name, origin) && name !in b.processing && name !in b.results && name !in b.deadLetter)
    || (Holds(b.processing, name, origin) && name !in b.pending && name !in b.results && name !in b.deadLetter)
    || (Holds(b.results, name, origin) && name !in b.pending && name !in b.processing && name !in b.deadLetter)
    || (Holds(b.deadLetter, name, origin) && name !in b.pending && name !in b.processing && name !in b.results)
  }

  /** A cancel while the task is live, or a creation while it is dead. */
  predicate Loses(b: Board, r: Request, name: Name) {
    || (r.Cancel? && r.name == name && (name in b.pending || name in b.processing))
    || (r.Create? && r.name == name && name in b.deadLetter)
  }

  lemma FileKeptExactlyWhen(b: Board, r: Request, name: Name, origin: Task)
    requires OnlyFile(b, name, origin)
    ensures OnlyFile(After(b, r), name, origin) <==> !Loses(b, r, name)
  {
  }

  lemma AfterKeepsName(b: Board, r: Request, name: Name)
    requires name in Names(b) && !(r.Cancel? && r.name == name)
    ensures name in Names(After(b, r))
  {
  }

  /** Stage exclusivity: every sequence of requests keeps it, and keeps file names equal to stored ids. */
  lemma {:induction false} RunKeepsExclusive(b: Board, requests: seq<Request>)
    requires Exclusive(b) && AllNamed(b) && forall k :: 0 <= k < |requests| ==> WellFormed(requests[k])
    ensures Exclusive(Run(b, requests)) && AllNamed(Run(b, requests))
    decreases |requests|
  {
    if requests != [] {
      AfterKeepsExclusive(b, requests[0]);
      AfterKeepsNamed(b, requests[0]);
      RunKeepsExclusive(After(b, requests[0]), requests[1..]);
    }
  }

  /** Only a cancel of that very task makes a name disappear from all four stages. */
  lemma {:induction false} OnlyCancelRemoves(b: Board, requests: seq<Request>, name: Name)
    requires name in Names(b) && name !in Names(Run(b, requests))
    ensures exists k :: 0 <= k < |requests| && requests[k].Cancel? && requests[k].name == name
    decreases |requests|
  {
    var r := requests[0];
    if !(r.Cancel? && r.name == name) {
      AfterKeepsName(b, r, name);
      OnlyCancelRemoves(After(b, r), requests[1..], name);
    }
  }

  predicate KeptThroughout(b: Board, requests: seq<Request>, name: Name, origin: Task)
    decreases |requests|
  {
    OnlyFile(b, name, origin)
    && (requests != [] ==> KeptThroughout(After(b, requests[0]), requests[1..], name, origin))
  }

  /** Some request loses the task at the moment it comes. */
  predicate SomeLoses(b: Board, requests: seq<Request>, name: Name)
    decreases |requests|
  {
    requests != [] && (Loses(b, requests[0], name) || SomeLoses(After(b, requests[0]), requests[1..], name))
  }

  /** A task with a single file keeps a single file with the same content through a whole run, wherever
      it is moved and whoever takes it over, exactly when no request cancels it while it is in
      pending or processing or creates it again while it is in dead_letter. */
  lemma {:induction false} RunConservesTask(b: Board, requests: seq<Request>, name: Name, origin: Task)
    requires OnlyFile(b, name, origin)
    ensures KeptThroughout(b, requests, name, origin) <==> !SomeLoses(b, requests, name)
    ensures KeptThroughout(b, requests, name, origin) ==> OnlyFile(Run(b, requests), name, origin)
    decreases |requests|
  {
    if requests != [] {
      FileKeptExactlyWhen(b, requests[0], name, origin);
      if !Loses(b, requests[0], name) {
        RunConservesTask(After(b, requests[0]), requests[1..], name, origin);
      } else {
        assert !OnlyFile(After(b, requests[0]), name, origin);
      }
    }
  }

  /** Creation does not look into dead_letter: a dead task created again has two files. */
  lemma DeadTaskCanBeCreatedAgain(b: Board, name: Name, task: Task)
    requires OnlyFile(b, name, Origin(task)) && name in b.deadLetter
    ensures var t := After(b, Create(name, task)); name in t.pending && name in t.deadLetter
  {
  }

  // ---------------------------------------------------------------- where one request puts a file

  /** A word occurs in a text, letters A to Z taken as small ones. */
  predicate Mentions(text: string, word: string) {
    exists i | 0 <= i <= |text| - |word| :: SameAt(text, word, i)
  }

  predicate SameAt(text: string, word: string, i: int) {
    0 <= i <= |text| - |word| && forall j :: 0 <= j < |word| ==> Small(text[i + j]) == Small(word[j])
  }

  function Small(c: char): char {
    if 'A' <= c <= 'Z' then c - 'A' + 'a' else c
  }

  lemma MentionsExactly(text: string, word: string)
    ensures Contains(Lower(text), Lower(word)) <==> Mentions(text, word)
  {
    var a, b := Lower(text), Lower(word);
    forall i | 0 <= i <= |text| - |word| ensures OccursAt(a, b, i) <==> SameAt(text, word, i) {
      if SameAt(text, word, i) {
        assert a[i..i + |b|] == b;
      } else if OccursAt(a, b, i) {
        forall j | 0 <= j < |word| ensures Small(text[i + j]) == Small(word[j]) {
          assert a[i..i + |b|][j] == b[j];
        }
      }
    }
  }

  /** A manual fix takes a file whose stored id, or else name, is listed, or whose prompt mentions the project. */
  lemma RelatedExactlyWhen(name: Name, t: Task, r: Request)
    requires r.ManualFix?
    ensures IsRelated(name, t, r) <==>
      || (t.id.Some? && t.id.value in r.related) || (t.id.None? && name in r.related)
      || (r.project != "" && Mentions(t.prompt, r.project))
  {
    MentionsExactly(t.prompt, r.project);
  }

  /** A task is stale exactly without a start time or when it started at least that many minutes ago. */
  lemma StaleExactlyWhen(t: Task, now: int, maxAgeMinutes: int)
    ensures IsStale(t, now, maxAgeMinutes) <==>
      t.startedAt == None || t.startedAt.value + maxAgeMinutes * 60 <= now
  {
  }

  /** No request touches another name; creation only adds a pending file; cancel takes from pending first;
      retry puts back results first; take-over files processing first, with its override, under results. */
  lemma RequestTells(b: Board, r: Request, name: Name)
    requires !r.ManualFix? && !r.CleanupStale?
    ensures var t := After(b, r);
      && (r.name != name ==> SameFiles(b, t, name))
      && (r.Create? && r.name == name ==>
            if name in b.pending || name in b.processing || name in b.results then t == b
            else name in t.pending && t.pending[name] == r.task && t.deadLetter == b.deadLetter)
      && (r == Cancel(name) ==>
            name !in t.pending && t.results == b.results && t.deadLetter == b.deadLetter
            && (name in t.processing <==> name in b.processing && name in b.pending))
      && (r == Retry(name) && (name in b.results || name in b.processing) ==>
            && name in t.pending && t.deadLetter == b.deadLetter && name !in t.results
            && t.pending[name] == (if name in b.results then b.results[name] else b.processing[name])
            && (name in t.processing <==> name in b.processing && name in b.results))
      && (r == Retry(name) && name !in b.results && name !in b.processing ==> t == b)
      && (r.Takeover? && r.name == name && (name in b.processing || name in b.pending) ==>
            && name in t.results && t.deadLetter == b.deadLetter && name !in t.processing
            && t.results[name] == (if name in b.processing then b.processing[name] else b.pending[name]).(override := Some(r.override))
            && (name in t.pending <==> name in b.pending && name in b.processing))
      && (r.Takeover? && r.name == name && name !in b.processing && name !in b.pending ==> t == b)
  {
  }

  predicate SameFiles(b: Board, t: Board, name: Name) {
    SameFile(b.pending, t.pending, name) && SameFile(b.processing, t.processing, name)
    && SameFile(b.results, t.results, name) && SameFile(b.deadLetter, t.deadLetter, name)
  }

  predicate SameFile(a: Stage, b: Stage, name: Name) {
    (name in a <==> name in b) && (name in a ==> b[name] == a[name])
  }

  /** A manual fix files every related task of pending and processing under results, with its override, the
      one from processing if both have it; nothing else changes. */
  lemma ManualFixTells(b: Board, r: Request, name: Name)
    requires r.ManualFix?
    ensures var t := After(b, r);
      var waiting := name in b.pending && IsRelated(name, b.pending[name], r);
      var working := name in b.processing && IsRelated(name, b.processing[name], r);
      && (name in t.pending <==> name in b.pending && !waiting) && (name in t.processing <==> name in b.processing && !working)
      && (name in t.pending ==> t.pending[name] == b.pending[name])
      && (name in t.processing ==> t.processing[name] == b.processing[name])
      && (working ==> name in t.results && t.results[name] == b.processing[name].(override := Some(r.override)))
      && (waiting && !working ==> name in t.results && t.results[name] == b.pending[name].(override := Some(r.override)))
      && (!waiting && !working ==> SameFile(b.results, t.results, name))
      && t.deadLetter == b.deadLetter
  {
  }

  /** A clean-up moves every stale file of processing, as it is, to dead_letter; nothing else changes. */
  lemma CleanupTells(b: Board, r: Request, name: Name)
    requires r.CleanupStale?
    ensures var t := After(b, r);
      var stale := name in b.processing && IsStale(b.processing[name], r.now, r.maxAgeMinutes);
      && (name in t.processing <==> name in b.processing && !stale)
      && (name in t.processing ==> t.processing[name] == b.processing[name])
      && (stale ==> name in t.deadLetter && t.deadLetter[name] == b.processing[name])
      && (!stale ==> SameFile(b.deadLetter, t.deadLetter, name))
      && t.pending == b.pending && t.results == b.results
  {
  }
}
