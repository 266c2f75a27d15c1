/** Pipeline stages with their retries and their fallback (agent/backends.py). */
module PipelineRuns {
  import opened Common

  datatype Provider = Anthropic | OpenAi | Unnamed

  datatype Backend = CodexBackend | ClaudeBackend | OpenAiBackend | OtherBackend

  /** A configured stage; provider is what its model and provider settings amount to. */
  datatype Stage = Stage(name: string, backend: Backend, model: string, provider: Provider)

  /** The global model and provider settings that every tool reads, and the model that an OpenAI stage
      falls back on. */
  datatype Settings = Settings(model: string, provider: Provider)

  datatype Tool = Codex | Claude

  /** One call of a command line tool: with which model, and whether the retry guard was added. */
  datatype Call = Call(tool: Tool, model: string, guarded: bool)

  /** What a call returned; noop says why it did no work, if it did none. */
  datatype Reply = Reply(returnCode: int, noop: Option<string>)

  /** The reported run of a stage; fallbackModel is the model recorded for a fallback, if one was used. */
  datatype StageRun = StageRun(reply: Reply, attemptCount: int, fallbackModel: Option<string>)

  const FALLBACK_MODEL := "claude-sonnet-4-6"

  datatype StageResult = StageResult(stage: Stage, index: nat, run: StageRun)

  predicate IsAnalysis(name: string) {
    name in {"plan", "planning", "verify", "verification", "test", "testing", "review", "check", "analyse",
             "analysis", "audit", "pm", "qa"}
  }

  /** The last stage of a role pipeline gets at least two retries. */
  function Retries(stage: Stage, configured: int): int {
    if stage.name == "qa" && configured < 2 then 2 else configured
  }

  function Attempts(stage: Stage, configured: int): nat {
    if Retries(stage, configured) < 0 then 1 else Retries(stage, configured) + 1
  }

  function ProviderOf(g: Settings, stage: Stage): Provider {
    if stage.model != "" then stage.provider else g.provider
  }

  /** The tool an attempt uses: an analysis stage always runs Claude. */
  function Route(g: Settings, stage: Stage): Tool {
    if IsAnalysis(stage.name) then Claude
    else if stage.backend.ClaudeBackend? && ProviderOf(g, stage) != OpenAi then Claude
    else Codex
  }

  /** The model an attempt runs on: an analysis stage, and a stage without a known routing backend,
      ignores its own. */
  function ModelFor(g: Settings, stage: Stage, openAiModel: string): string {
    if IsAnalysis(stage.name) || stage.backend.CodexBackend? || stage.backend.OtherBackend? then g.model
    else if stage.model != "" then stage.model
    else if stage.backend.OpenAiBackend? && !(g.provider == OpenAi && g.model != "") then openAiModel
    else g.model
  }

  function AttemptCall(g: Settings, stage: Stage, openAiModel: string, guarded: bool): Call {
    var model := ModelFor(g, stage, openAiModel);
    Call(Route(g, stage), if model != "" then model else g.model, guarded)
  }

  /** The fallback runs Claude on the global model, whatever model it records. */
  function FallbackCall(g: Settings): Call {
    Call(Claude, g.model, false)
  }

  /** Whether the stage counts as routed to Codex when its attempts are used up. */
  predicate UsesCodex(g: Settings, stage: Stage) {
    var actual := if stage.backend.OpenAiBackend? then OpenAi else ProviderOf(g, stage);
    || actual == OpenAi || stage.backend.OpenAiBackend? || stage.backend.CodexBackend?
    || (stage.backend.ClaudeBackend? && stage.model != "" && stage.provider == OpenAi)
    || (stage.backend.ClaudeBackend? && stage.model == "" && g.provider == OpenAi)
  }

  predicate FallsBack(g: Settings, stage: Stage) {
    UsesCodex(g, stage) && !IsAnalysis(stage.name)
  }

  /** How many attempts a stage has: the configured retries and one more, three at least for qa, and one when
      the configured number is negative. */
  lemma AttemptsExactly(stage: Stage, configured: int)
    ensures Attempts(stage, configured) ==
      if stage.name == "qa" then (if configured > 2 then configured + 1 else 3)
      else if configured > 0 then configured + 1 else 1
  {
  }

  /** Where an attempt goes and on which model, backend by backend: an analysis stage to Claude on the global
      model; OpenAI to Codex; Claude to itself unless the provider in force is OpenAI; all else to Codex. */
  lemma AttemptExactly(g: Settings, stage: Stage, openAiModel: string, guarded: bool)
    ensures var c := AttemptCall(g, stage, openAiModel, guarded);
      && c.guarded == guarded
      && (IsAnalysis(stage.name) ==> c == Call(Claude, g.model, guarded))
      && (!IsAnalysis(stage.name) && stage.backend == OpenAiBackend && openAiModel != "" ==>
            c == Call(Codex, if stage.model != "" then stage.model
                             else if g.provider == OpenAi && g.model != "" then g.model else openAiModel, guarded))
      && (!IsAnalysis(stage.name) && stage.backend == ClaudeBackend && stage.model != "" ==>
            c == Call(if stage.provider == OpenAi then Codex else Claude, stage.model, guarded))
      && (!IsAnalysis(stage.name) && stage.backend == ClaudeBackend && stage.model == "" ==>
            c == Call(if g.provider == OpenAi then Codex else Claude, g.model, guarded))
      && (!IsAnalysis(stage.name) && (stage.backend == CodexBackend || stage.backend == OtherBackend) ==>
            c == Call(Codex, g.model, guarded))
  {
  }

  /** Which stages fall back on Claude when their attempts are used up. */
  lemma FallsBackExactlyWhen(g: Settings, stage: Stage)
    ensures FallsBack(g, stage) <==>
      && !IsAnalysis(stage.name)
      && (|| stage.backend == OpenAiBackend || stage.backend == CodexBackend
          || (if stage.model != "" then stage.provider == OpenAi else g.provider == OpenAi))
  {
  }

  /** The stages that only analyse. */
  lemma AnalysisExactly(name: string)
    ensures IsAnalysis(name) <==>
      || name == "plan" || name == "planning" || name == "verify" || name == "verification" || name == "test"
      || name == "testing" || name == "review" || name == "check" || name == "analyse" || name == "analysis"
      || name == "audit" || name == "pm" || name == "qa"
  {
  }

  // ---------------------------------------------------------------- what one stage does

  /** The calls and replies of one stage: attempts until one does work or all are used up, the guard on
      every attempt but the first, then the fallback if the stage has one; the run reports the
      last reply. */
  predicate StageRan(g: Settings, stage: Stage, openAiModel: string, configured: int, run: StageRun,
                     block: seq<Call>, answers: seq<Reply>)
  {
    var last := |block| - 1;
    && |block| == |answers| >= 1
    && (forall k :: 0 <= k <= last ==>
          block[k] == if run.fallbackModel.Some? && k == last then FallbackCall(g) else AttemptCall(g, stage, openAiModel, k > 0))
    && (forall k :: 0 <= k < last ==> answers[k].noop.Some?)
    && run.reply == answers[last]
    && (if run.fallbackModel.Some? then FallsBack(g, stage) && |block| == Attempts(stage, configured) + 1
        else |block| <= Attempts(stage, configured))
    && (run.reply.noop.Some? && !run.fallbackModel.Some? ==>
          !FallsBack(g, stage) && |block| == Attempts(stage, configured))
    && (run.fallbackModel.Some? ==> run.fallbackModel.value == FALLBACK_MODEL)
    && run.attemptCount == Reported(stage, configured, run, |block|)
  }

  /** The attempt count as the three ways out of the stage report it. */
  function Reported(stage: Stage, configured: int, run: StageRun, made: nat): int {
    if run.fallbackModel.Some? then Retries(stage, configured) + 2
    else if run.reply.noop.Some? then Retries(stage, configured) + 1
    else made
  }

  /** The calls of a stage, one by one: all but a fallback are attempts, guarded from the second on; every reply
      but the last was a no-op; a fallback comes after all attempts, on Claude, unguarded; and
      attempts used up in vain without one mean that the stage has none. */
  lemma CallsTell(g: Settings, stage: Stage, openAiModel: string, configured: int, run: StageRun,
                  block: seq<Call>, answers: seq<Reply>)
    requires StageRan(g, stage, openAiModel, configured, run, block, answers)
    ensures var attempts := |block| - (if run.fallbackModel == None then 0 else 1);
      && 1 <= attempts <= Attempts(stage, configured) && |answers| == |block|
      && (forall k :: 0 <= k < attempts ==> block[k] == AttemptCall(g, stage, openAiModel, k != 0))
      && (forall k :: 0 <= k < |block| - 1 ==> answers[k].noop != None)
      && run.reply == answers[|answers| - 1]
      && (run.fallbackModel != None ==>
            attempts == Attempts(stage, configured) && FallsBack(g, stage)
            && block[|block| - 1] == Call(Claude, g.model, false))
      && (run.fallbackModel == None && run.reply.noop != None ==>
            attempts == Attempts(stage, configured) && !FallsBack(g, stage))
  {
  }

  /** What is reported after work done, after the fallback, and after attempts used up in vain. */
  lemma ReportedExactly(g: Settings, stage: Stage, openAiModel: string, configured: int, run: StageRun,
                        block: seq<Call>, answers: seq<Reply>)
    requires StageRan(g, stage, openAiModel, configured, run, block, answers)
    ensures var retries := if stage.name == "qa" && configured < 2 then 2 else configured;
      && (run.reply.noop == None && run.fallbackModel == None ==> run.attemptCount == |block|)
      && (run.fallbackModel != None ==> run.attemptCount == retries + 2)
      && (run.reply.noop != None && run.fallbackModel == None ==> run.attemptCount == retries + 1)
  {
  }

  /** The reported count is the number of calls made exactly when the retry limit is not negative or the
      first call did work; and there are never more calls than the limit and two. */
  lemma CountIsCallsExactlyWhen(g: Settings, stage: Stage, openAiModel: string, configured: int, run: StageRun,
                                block: seq<Call>, answers: seq<Reply>)
    requires StageRan(g, stage, openAiModel, configured, run, block, answers)
    ensures run.attemptCount == |block| <==> Retries(stage, configured) >= 0 || answers[0].noop.None?
    ensures |block| <= (if Retries(stage, configured) < 0 then 0 else Retries(stage, configured)) + 2
  {
    if Retries(stage, configured) < 0 && answers[0].noop.Some? {
      assert |block| == 1 || run.fallbackModel.Some?;
    }
  }

  /** The replies determine the run and its calls. */
  lemma StageRanOnce(g: Settings, stage: Stage, openAiModel: string, configured: int, run: StageRun, run': StageRun,
                     block: seq<Call>, block': seq<Call>, replies: nat -> Reply, from: nat)
    requires StageRan(g, stage, openAiModel, configured, run, block, Answers(replies, from, from + |block|))
    requires StageRan(g, stage, openAiModel, configured, run', block', Answers(replies, from, from + |block'|))
    ensures run == run' && block == block'
  {
    var answers, answers' := Answers(replies, from, from + |block|), Answers(replies, from, from + |block'|);
    assert forall k :: 0 <= k < |answers| && k < |answers'| ==> answers[k] == answers'[k];
  }

  /** The model recorded for a fallback is the one it ran on exactly when that happens to be the global model. */
  lemma FallbackModelIsTrueExactlyWhen(g: Settings, stage: Stage, openAiModel: string, configured: int, run: StageRun,
                                       block: seq<Call>, answers: seq<Reply>)
    requires StageRan(g, stage, openAiModel, configured, run, block, answers) && run.fallbackModel.Some?
    ensures run.fallbackModel == Some("claude-sonnet-4-6")
    ensures run.fallbackModel == Some(block[|block| - 1].model) <==> g.model == "claude-sonnet-4-6"
  {
    assert block[|block| - 1] == FallbackCall(g);
  }

  /** The fallback to Claude is only ever taken from Codex; and a Codex stage misses it exactly when
      its backend is none of the three known ones and its provider is not OpenAI. */
  lemma FallbackIsFromCodex(g: Settings, stage: Stage)
    requires !IsAnalysis(stage.name)
    ensures UsesCodex(g, stage) ==> Route(g, stage) == Codex
    ensures Route(g, stage) == Codex && !UsesCodex(g, stage) <==>
      stage.backend.OtherBackend? && ProviderOf(g, stage) != OpenAi
  {
  }

  function Answers(replies: nat -> Reply, from: nat, to: nat): (s: seq<Reply>)
    requires from <= to
    ensures |s| == to - from && forall k :: 0 <= k < |s| ==> s[k] == replies(from + k)
  {
    seq(to - from, k requires 0 <= k < to - from => replies(from + k))
  }

  // ---------------------------------------------------------------- what a pipeline does

  /** One stage result and its block of calls. */
  predicate Block(g: Settings, openAiModel: string, configured: int, result: StageResult,
                  calls: seq<Call>, replies: nat -> Reply, from: nat, to: nat)
  {
    && from < to <= |calls|
    && StageRan(g, result.stage, openAiModel, configured, result.run, calls[from..to], Answers(replies, from, to))
  }

  /** The results are of the first stages in order, each with its own block of calls, one after the other. */
  predicate StagesRan(g: Settings, stages: seq<Stage>, openAiModel: string, configured: int,
                      results: seq<StageResult>, calls: seq<Call>, replies: nat -> Reply, marks: seq<nat>)
  {
    && |results| <= |stages| && |marks| == |results| + 1 && marks[|results|] == |calls|
    && (forall i :: 0 <= i < |results| ==> results[i].stage == stages[i] && results[i].index == i + 1)
    && forall i :: 0 <= i < |results| ==>
         Block(g, openAiModel, configured, results[i], calls, replies, marks[i], marks[i + 1])
  }

  /** Stage by stage and block by block, what it means that the stages ran. */
  lemma StagesTell(g: Settings, stages: seq<Stage>, openAiModel: string, configured: int,
                   results: seq<StageResult>, calls: seq<Call>, replies: nat -> Reply, marks: seq<nat>, i: nat)
    requires StagesRan(g, stages, openAiModel, configured, results, calls, replies, marks) && i < |results|
    ensures |results| <= |stages| && |marks| == |results| + 1 && marks[|results|] == |calls|
    ensures results[i].stage == stages[i] && results[i].index == i + 1 && marks[i] < marks[i + 1] <= |calls|
    ensures StageRan(g, stages[i], openAiModel, configured, results[i].run,
                     calls[marks[i]..marks[i + 1]], Answers(replies, marks[i], marks[i + 1]))
  {
    assert Block(g, openAiModel, configured, results[i], calls, replies, marks[i], marks[i + 1]);
  }

  lemma BlockFrame(g: Settings, openAiModel: string, configured: int, result: StageResult,
                   calls: seq<Call>, calls': seq<Call>, replies: nat -> Reply, from: nat, to: nat)
    requires Block(g, openAiModel, configured, result, calls, replies, from, to)
    requires |calls| <= |calls'| && calls'[..|calls|] == calls
    ensures Block(g, openAiModel, configured, result, calls', replies, from, to)
  {
    assert calls'[from..to] == calls[from..to];
  }

  lemma OneMoreStage(g: Settings, stages: seq<Stage>, openAiModel: string, configured: int,
                     results: seq<StageResult>, calls: seq<Call>, calls': seq<Call>, replies: nat -> Reply,
                     marks: seq<nat>, result: StageResult)
    requires StagesRan(g, stages, openAiModel, configured, results, calls, replies, marks) && |results| < |stages|
    requires result.stage == stages[|results|] && result.index == |results| + 1
    requires |calls| <= |calls'| && calls'[..|calls|] == calls
    requires Block(g, openAiModel, configured, result, calls', replies, |calls|, |calls'|)
    ensures StagesRan(g, stages, openAiModel, configured, results + [result], calls', replies, marks + [|calls'|])
  {
    var results', marks' := results + [result], marks + [|calls'|];
    forall i | 0 <= i < |results'|
      ensures Block(g, openAiModel, configured, results'[i], calls', replies, marks'[i], marks'[i + 1])
    {
      if i < |results| {
        BlockFrame(g, openAiModel, configured, results[i], calls, calls', replies, marks[i], marks[i + 1]);
      }
    }
  }

  class Pipeline {
    var settings: Settings
    var calls: seq<Call>

    constructor (settings: Settings)
      ensures this.settings == settings && calls == []
    {
      this.settings, calls := settings, [];
    }

    method CallTool(tool: Tool, override: string, guarded: bool, replies: nat -> Reply) returns (r: Reply)
      modifies this`calls
      ensures r == replies(|old(calls)|)
      ensures calls == old(calls) + [Call(tool, if override != "" then override else settings.model, guarded)]
    {
      r := replies(|calls|);
      calls := calls + [Call(tool, if override != "" then override else settings.model, guarded)];
    }

    /** One attempt.  A Claude stage with its own model changes the global settings for the call and
        puts them back. */
    method RunOnce(stage: Stage, openAiModel: string, guarded: bool, replies: nat -> Reply) returns (r: Reply)
      modifies this
      ensures settings == old(settings) && r == replies(|old(calls)|)
      ensures calls == old(calls) + [AttemptCall(settings, stage, openAiModel, guarded)]
    {
      if IsAnalysis(stage.name) {
        r := CallTool(Claude, "", guarded, replies);
      } else if stage.backend.OpenAiBackend? {
        var actual := if stage.model != "" then stage.model
                      else if settings.provider == OpenAi && settings.model != "" then settings.model
                      else openAiModel;
        r := CallTool(Codex, actual, guarded, replies);
      } else if stage.backend.ClaudeBackend? && stage.model != "" {
        var before := settings;
        settings := Settings(stage.model, stage.provider);
        if stage.provider == OpenAi {
          r := CallTool(Codex, stage.model, guarded, replies);
        } else {
          r := CallTool(Claude, "", guarded, replies);
        }
        settings := before;
      } else if stage.backend.ClaudeBackend? && settings.provider != OpenAi {
        r := CallTool(Claude, "", guarded, replies);
      } else if stage.backend.ClaudeBackend? {
        r := CallTool(Codex, settings.model, guarded, replies);
      } else {
        r := CallTool(Codex, "", guarded, replies);
      }
    }

    /** The first attempt and the guarded retries, until one does work or all are used up. */
    method RunAttempts(stage: Stage, openAiModel: string, configured: int, replies: nat -> Reply)
      returns (reply: Reply, made: nat)
      modifies this
      ensures settings == old(settings) && old(calls) < calls
      ensures made == |calls| - |old(calls)| <= Attempts(stage, configured)
      ensures forall k :: |old(calls)| <= k < |calls| ==>
        calls[k] == AttemptCall(settings, stage, openAiModel, k > |old(calls)|)
      ensures forall k :: |old(calls)| <= k < |calls| - 1 ==> replies(k).noop.Some?
      ensures reply == replies(|calls| - 1)
      ensures reply.noop.Some? ==> made == Attempts(stage, configured)
    {
      reply := RunOnce(stage, openAiModel, false, replies);
      made := 1;
      while reply.noop.Some? && made < Retries(stage, configured) + 1
        invariant 1 <= made == |calls| - |old(calls)| <= Attempts(stage, configured)
        invariant settings == old(settings) && old(calls) < calls
        invariant reply == replies(|calls| - 1)
        invariant forall k :: |old(calls)| <= k < |calls| - 1 ==> replies(k).noop.Some?
        invariant forall k :: |old(calls)| <= k < |calls| ==>
          calls[k] == AttemptCall(settings, stage, openAiModel, k > |old(calls)|)
      {
        reply := RunOnce(stage, openAiModel, true, replies);
        made := made + 1;
      }
    }

    method RunStage(stage: Stage, openAiModel: string, configured: int, replies: nat -> Reply) returns (run: StageRun)
      modifies this
      ensures settings == old(settings)
      ensures old(calls) < calls
      ensures StageRan(settings, stage, openAiModel, configured, run,
                       calls[|old(calls)|..], Answers(replies, |old(calls)|, |calls|))
    {
      var n := Retries(stage, configured);
      var reply, made := RunAttempts(stage, openAiModel, configured, replies);
      if reply.noop.None? {
        return StageRun(reply, made, None);
      }
      if UsesCodex(settings, stage) && !IsAnalysis(stage.name) {
        reply := CallTool(Claude, "", false, replies);
        return StageRun(reply, n + 2, Some(FALLBACK_MODEL));
      }
      run := StageRun(reply, n + 1, None);
    }

    /** A pipeline runs a prefix of its stages in order, every stage but the last one that ran did work
        and exited with 0, and it is completed exactly when all stages ran and the last did too. */
    method ProcessPipeline(stages: seq<Stage>, openAiModel: string, configured: int, replies: nat -> Reply)
      returns (results: seq<StageResult>, completed: bool, ghost marks: seq<nat>)
      requires stages != []
      modifies this
      ensures settings == old(settings) && old(calls) <= calls
      ensures StagesRan(settings, stages, openAiModel, configured, results, calls, replies, marks)
      ensures marks[0] == |old(calls)|
      ensures results != []
      ensures forall i :: 0 <= i < |results| - 1 ==> results[i].run.reply == Reply(0, None)
      ensures |results| < |stages| ==> results[|results| - 1].run.reply != Reply(0, None)
      ensures completed <==> results[|results| - 1].run.reply == Reply(0, None)
    {
      results, completed, marks := [], false, [|calls|];
      var i := 0;
      while i < |stages|
        invariant 0 <= i == |results| <= |stages|
        invariant settings == old(settings) && old(calls) <= calls
        invariant StagesRan(settings, stages, openAiModel, configured, results, calls, replies, marks)
        invariant marks[0] == |old(calls)|
        invariant forall k :: 0 <= k < i ==> results[k].run.reply == Reply(0, None)
      {
        ghost var before := calls;
        var result := RunIndexed(stages[i], i + 1, openAiModel, configured, replies);
        OneMoreStage(settings, stages, openAiModel, configured, results, before, calls, replies, marks, result);
        results, marks := results + [result], marks + [|calls|];
        if result.run.reply.returnCode != 0 || result.run.reply.noop.Some? {
          break;
        }
        i := i + 1;
      }
      var last := results[|results| - 1].run.reply;
      completed := last.returnCode == 0 && last.noop.None?;
    }

    method RunIndexed(stage: Stage, index: nat, openAiModel: string, configured: int, replies: nat -> Reply)
      returns (result: StageResult)
      modifies this
      ensures settings == old(settings) && old(calls) <= calls
      ensures result.stage == stage && result.index == index
      ensures Block(settings, openAiModel, configured, result, calls, replies, |old(calls)|, |calls|)
    {
      var run := RunStage(stage, openAiModel, configured, replies);
      assert calls[|old(calls)|..|calls|] == calls[|old(calls)|..];
      result := StageResult(stage, index, run);
    }
  }
}
