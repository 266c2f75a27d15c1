/** Pipeline configuration: what `validate_pipeline_config` accepts (agent/pipeline_config.py)
    against what the AI lifecycle manager resolves and checks at use (agent/ai_lifecycle.py).

    Known names are constructors; any other text is kept as it stands. */
module RoutingConfig {
  datatype Provider = NoProvider | Anthropic | OpenAi | FixtureProvider | OtherProvider(text: string)

  datatype Backend =
    | NoBackend | AnthropicApi | ClaudeCli | CodexCli | DockerLiveAi | Fixture | OpenAiApi
    | OtherBackend(text: string)

  datatype Auth = NoAuth | ApiKeyEnv | CliAuth | ExternalHarness | NotRequired | OtherAuth(text: string)

  datatype Role =
    | Pm | Dev | Tester | Qa | Coordinator | Gatekeeper | Utility | OtherRole(text: string)

  /** Text operations: strip, lower-case and alias a name that is not already canonical; lower-case a
      role name; the provider a model id names, if it names one unambiguously. */
  datatype Text = Text(
    provider: string -> Provider, backend: string -> Backend, auth: string -> Auth,
    role: string -> Role, infer: string -> Provider)

  ghost predicate Sound(t: Text) {
    && (forall m :: t.infer(m) == NoProvider || ValidProvider(t.infer(m)))
    && t.infer("") == NoProvider && t.role("") == NAMELESS
  }

  datatype Entry = Entry(provider: Provider, model: string, backend: Backend, auth: Auth)

  const BLANK := Entry(NoProvider, "", NoBackend, NoAuth)

  datatype Config = Config(default: Entry, roles: map<Role, Entry>)

  predicate EndsWith(s: string, suffix: string) {
    |suffix| <= |s| && s[|s| - |suffix|..] == suffix
  }

  predicate IsApi(b: Backend) {
    b.AnthropicApi? || b.OpenAiApi? || (b.OtherBackend? && EndsWith(b.text, "_api"))
  }

  predicate IsCli(b: Backend) {
    b.ClaudeCli? || b.CodexCli? || (b.OtherBackend? && EndsWith(b.text, "_cli"))
  }

  function DefaultBackend(p: Provider): Backend {
    if p.OpenAi? then CodexCli else ClaudeCli
  }

  function DefaultAuth(b: Backend): Auth {
    if IsApi(b) then ApiKeyEnv
    else if IsCli(b) then CliAuth
    else if b.DockerLiveAi? then ExternalHarness
    else NotRequired
  }

  function CanonProvider(t: Text, p: Provider): Provider {
    if p.OtherProvider? then t.provider(p.text) else p
  }

  function CanonBackend(t: Text, b: Backend): Backend {
    if b.OtherBackend? then t.backend(b.text) else b
  }

  function CanonAuth(t: Text, a: Auth): Auth {
    if a.OtherAuth? then t.auth(a.text) else a
  }

  function CanonRole(t: Text, r: Role): Role {
    if r.OtherRole? then t.role(r.text) else r
  }

  predicate ValidProvider(p: Provider) { p.Anthropic? || p.OpenAi? }

  predicate ValidBackend(b: Backend) { !b.NoBackend? && !b.OtherBackend? }

  predicate ValidAuth(a: Auth) { !a.NoAuth? && !a.OtherAuth? }

  predicate ValidRole(r: Role) { !r.OtherRole? }

  function RequiredProvider(b: Backend): Provider {
    match b
    case AnthropicApi | ClaudeCli => Anthropic
    case CodexCli | OpenAiApi => OpenAi
    case _ => NoProvider
  }

  function RequiredAuth(b: Backend): Auth {
    match b
    case AnthropicApi | OpenAiApi => ApiKeyEnv
    case ClaudeCli | CodexCli => CliAuth
    case DockerLiveAi => ExternalHarness
    case Fixture => NotRequired
    case _ => NoAuth
  }

  datatype Error =
    | BadBackend | BadAuth | FixtureClaimsProvider | BadProvider
    | ProviderConflict | AuthConflict | ModelConflict

  /** `validate_invocation_routing`: the errors of one routing tuple. */
  function RoutingErrors(t: Text, e: Entry): set<Error> {
    var provider := CanonProvider(t, e.provider);
    var backend := CanonBackend(t, e.backend);
    var auth := CanonAuth(t, e.auth);
    if !ValidBackend(backend) then {BadBackend}
    else
      (if !ValidAuth(auth) then {BadAuth} else {})
      + (if backend.Fixture? then
           if !provider.NoProvider? && !provider.FixtureProvider? then {FixtureClaimsProvider} else {}
         else if !ValidProvider(provider) then {BadProvider} else {})
      + (if RequiredProvider(backend) != NoProvider && provider != RequiredProvider(backend)
         then {ProviderConflict} else {})
      + (if RequiredAuth(backend) != NoAuth && auth != RequiredAuth(backend) then {AuthConflict} else {})
      + (if t.infer(e.model) != NoProvider && !provider.NoProvider? && !provider.FixtureProvider?
            && provider != t.infer(e.model)
         then {ModelConflict} else {})
  }

  /** `resolve_role_config`: role over default, then the derived backend and auth modes. */
  function Resolve(t: Text, role: Role, c: Config): Entry {
    var own := if CanonRole(t, role) in c.roles then c.roles[CanonRole(t, role)] else BLANK;
    var provider := if own.provider != NoProvider then own.provider else c.default.provider;
    var model := if own.model != "" then own.model else c.default.model;
    var backend0 := if own.backend != NoBackend then own.backend else c.default.backend;
    var backend :=
      if backend0 == NoBackend && provider != NoProvider then DefaultBackend(provider) else backend0;
    var auth0 := if own.auth != NoAuth then own.auth else c.default.auth;
    var auth := if auth0 == NoAuth && backend != NoBackend then DefaultAuth(backend) else auth0;
    Entry(provider, model, backend, auth)
  }

  /** The defaults the lifecycle manager adds before it validates. */
  function AtUse(t: Text, role: Role, c: Config): Entry {
    var r := Resolve(t, role, c);
    var provider := if r.provider == NoProvider then Anthropic else r.provider;
    var backend := if r.backend == NoBackend then DefaultBackend(provider) else r.backend;
    var auth := if r.auth == NoAuth then (if IsApi(backend) then ApiKeyEnv else CliAuth) else r.auth;
    Entry(provider, r.model, backend, auth)
  }

  predicate EntryAccepted(t: Text, e: Entry) {
    && (e.provider != NoProvider ==> ValidProvider(e.provider) && e.model != "")
    && (e.model != "" && e.provider == NoProvider ==> t.infer(e.model) != NoProvider)
    && (e.backend != NoBackend ==> ValidBackend(e.backend))
    && (e.auth != NoAuth ==> ValidAuth(e.auth))
  }

  /** The tuple the validator checks for one label; a wholly blank entry is skipped. */
  predicate EffectiveAccepted(t: Text, e: Entry) {
    e != BLANK ==>
      var backend := if e.backend == NoBackend then DefaultBackend(e.provider) else e.backend;
      var auth := if e.auth == NoAuth then DefaultAuth(backend) else e.auth;
      RoutingErrors(t, Entry(e.provider, e.model, backend, auth)) == {}
  }

  const NAMELESS := OtherRole("")

  /** `validate_pipeline_config` returns no errors. */
  predicate Accepted(t: Text, c: Config) {
    && EntryAccepted(t, c.default)
    && EffectiveAccepted(t, Resolve(t, NAMELESS, c))
    && forall role :: role in c.roles ==>
         && ValidRole(role) && EntryAccepted(t, c.roles[role])
         && EffectiveAccepted(t, Resolve(t, role, c))
  }

  /** First pass: every role and its own entry. */
  method CheckEntries(t: Text, c: Config) returns (errors: nat)
    ensures errors == 0 <==> forall role :: role in c.roles ==> ValidRole(role) && EntryAccepted(t, c.roles[role])
  {
    errors := 0;
    var todo := c.roles.Keys;
    while todo != {}
      invariant todo <= c.roles.Keys
      invariant errors == 0 <==> forall role :: role in c.roles && role !in todo ==>
        ValidRole(role) && EntryAccepted(t, c.roles[role])
    {
      var role :| role in todo;
      if !ValidRole(role) || !EntryAccepted(t, c.roles[role]) {
        errors := errors + 1;
      }
      todo := todo - {role};
    }
  }

  /** Second pass: what every valid role resolves to. */
  method CheckEffective(t: Text, c: Config) returns (errors: nat)
    ensures errors == 0 <==>
      forall role :: role in c.roles && ValidRole(role) ==> EffectiveAccepted(t, Resolve(t, role, c))
  {
    errors := 0;
    var todo := set role | role in c.roles && ValidRole(role);
    while todo != {}
      invariant todo <= c.roles.Keys
      invariant errors == 0 <==> forall role :: role in c.roles && ValidRole(role) && role !in todo ==>
        EffectiveAccepted(t, Resolve(t, role, c))
    {
      var role :| role in todo;
      if !EffectiveAccepted(t, Resolve(t, role, c)) {
        errors := errors + 1;
      }
      todo := todo - {role};
    }
  }

  /** The default entry, then the two passes over the roles. */
  method ValidatePipelineConfig(t: Text, c: Config) returns (errors: nat)
    ensures errors == 0 <==> Accepted(t, c)
  {
    errors := if EntryAccepted(t, c.default) then 0 else 1;
    var inEntries := CheckEntries(t, c);
    var inDefault := if EffectiveAccepted(t, Resolve(t, NAMELESS, c)) then 0 else 1;
    var inEffective := CheckEffective(t, c);
    errors := errors + inEntries + inDefault + inEffective;
  }

  /** The entry any role name resolves to was checked, even if the name is not configured. */
  lemma ResolvedIsEffective(t: Text, role: Role, c: Config)
    requires Sound(t) && Accepted(t, c)
    ensures EffectiveAccepted(t, Resolve(t, role, c))
  {
    var key := CanonRole(t, role);
    if key in c.roles {
      assert Resolve(t, role, c) == Resolve(t, key, c);
    } else {
      assert Resolve(t, role, c) == Resolve(t, NAMELESS, c);
    }
  }

  /** A validated configuration never fails at use: for every role name the tuple the lifecycle
      manager builds passes its own check, except when the resolved backend is the
      fixture, where it always fails. */
  lemma ValidatedNeverFailsAtUse(t: Text, role: Role, c: Config)
    requires Sound(t) && Accepted(t, c)
    ensures RoutingErrors(t, AtUse(t, role, c)) == {} <==> !Resolve(t, role, c).backend.Fixture?
  {
    ResolvedIsEffective(t, role, c);
    var r := Resolve(t, role, c);
    assert ValidProvider(r.provider) || r.provider.NoProvider?;
    assert ValidBackend(r.backend) || r.backend.NoBackend?;
    if r.backend.Fixture? {
      assert FixtureClaimsProvider in RoutingErrors(t, AtUse(t, role, c));
    } else if r != BLANK {
      var backend := if r.backend == NoBackend then DefaultBackend(r.provider) else r.backend;
      var auth := if r.auth == NoAuth then DefaultAuth(backend) else r.auth;
      assert BadProvider !in RoutingErrors(t, Entry(r.provider, r.model, backend, auth));
      assert AtUse(t, role, c) == r;
    }
  }

  /** There are accepted configurations that resolve to the fixture, and so always fail at use. */
  lemma FixtureIsAccepted(t: Text)
    requires Sound(t)
    ensures exists c, role :: (
      Accepted(t, c) && Resolve(t, role, c).backend.Fixture? && RoutingErrors(t, AtUse(t, role, c)) != {})
  {
    var c := Config(BLANK, map[Dev := Entry(NoProvider, "", Fixture, NoAuth)]);
    assert Resolve(t, NAMELESS, c) == BLANK;
    assert Accepted(t, c) && Resolve(t, Dev, c).backend.Fixture?;
    ValidatedNeverFailsAtUse(t, Dev, c);
  }

  // ---------------------------------------------------------------- the tables, entry by entry

  /** What a role resolves to: what it says itself, then what the default says, then what follows from the
      provider and from the backend. */
  lemma ResolveExactly(t: Text, role: Role, c: Config)
    ensures var key := if role.OtherRole? then t.role(role.text) else role;
      var own := if key in c.roles then c.roles[key] else Entry(NoProvider, "", NoBackend, NoAuth);
      var r := Resolve(t, role, c);
      && r.provider == (if own.provider != NoProvider then own.provider else c.default.provider)
      && r.model == (if own.model != "" then own.model else c.default.model)
      && r.backend == (if own.backend != NoBackend then own.backend
                       else if c.default.backend != NoBackend then c.default.backend
                       else if r.provider == NoProvider then NoBackend
                       else if r.provider == OpenAi then CodexCli else ClaudeCli)
      && r.auth == (if own.auth != NoAuth then own.auth
                    else if c.default.auth != NoAuth then c.default.auth else AuthBy(r.backend))
  {
  }

  /** The auth mode that follows from a backend. */
  function AuthBy(b: Backend): Auth {
    match b
    case NoBackend => NoAuth
    case AnthropicApi => ApiKeyEnv
    case OpenAiApi => ApiKeyEnv
    case ClaudeCli => CliAuth
    case CodexCli => CliAuth
    case DockerLiveAi => ExternalHarness
    case Fixture => NotRequired
    case OtherBackend(text) => if EndsIn(text, "_api") then ApiKeyEnv else if EndsIn(text, "_cli") then CliAuth else NotRequired
  }

  predicate EndsIn(text: string, suffix: string) {
    |text| >= |suffix| && forall i :: 0 <= i < |suffix| ==> text[|text| - |suffix| + i] == suffix[i]
  }

  lemma EndsInExactly(text: string, suffix: string)
    ensures EndsWith(text, suffix) <==> EndsIn(text, suffix)
  {
    if |suffix| <= |text| {
      var tail := text[|text| - |suffix|..];
      assert forall i :: 0 <= i < |suffix| ==> tail[i] == text[|text| - |suffix| + i];
    }
  }

  /** What the lifecycle manager adds: Anthropic, then the backend of the provider, then a key for an API
      backend and the command line's own authentication otherwise. */
  lemma UseExactly(t: Text, role: Role, c: Config)
    ensures var r, u := Resolve(t, role, c), AtUse(t, role, c);
      && u.model == r.model
      && u.provider == (if r.provider == NoProvider then Anthropic else r.provider)
      && u.backend == (if r.backend != NoBackend then r.backend else if u.provider == OpenAi then CodexCli else ClaudeCli)
      && u.auth == (if r.auth != NoAuth then r.auth
                    else if AuthBy(u.backend) == ApiKeyEnv then ApiKeyEnv else CliAuth)
  {
    var r := Resolve(t, role, c);
    if r.backend.OtherBackend? {
      EndsInExactly(r.backend.text, "_api");
    }
  }

  /** The routing table: the provider and the auth mode each known backend takes, and that a model which
      names a provider agrees with the one given. */
  lemma RoutingAcceptedExactlyWhen(t: Text, e: Entry)
    ensures var p := if e.provider.OtherProvider? then t.provider(e.provider.text) else e.provider;
      var b := if e.backend.OtherBackend? then t.backend(e.backend.text) else e.backend;
      var a := if e.auth.OtherAuth? then t.auth(e.auth.text) else e.auth;
      RoutingErrors(t, e) == {} <==>
        && (t.infer(e.model) == NoProvider || p == NoProvider || p == FixtureProvider || p == t.infer(e.model))
        && (|| (b == AnthropicApi && p == Anthropic && a == ApiKeyEnv)
            || (b == ClaudeCli && p == Anthropic && a == CliAuth)
            || (b == CodexCli && p == OpenAi && a == CliAuth)
            || (b == OpenAiApi && p == OpenAi && a == ApiKeyEnv)
            || (b == DockerLiveAi && (p == Anthropic || p == OpenAi) && a == ExternalHarness)
            || (b == Fixture && (p == NoProvider || p == FixtureProvider) && a == NotRequired))
  {
    forall x: Error ensures x in RoutingErrors(t, e) ==> RoutingErrors(t, e) != {} {
    }
  }

  /** Each error of a routing tuple, by itself: an unknown backend hides all others. */
  lemma ErrorsExactly(t: Text, e: Entry)
    ensures var p := if e.provider.OtherProvider? then t.provider(e.provider.text) else e.provider;
      var b := if e.backend.OtherBackend? then t.backend(e.backend.text) else e.backend;
      var a := if e.auth.OtherAuth? then t.auth(e.auth.text) else e.auth;
      var known := b != NoBackend && !b.OtherBackend?;
      var errors := RoutingErrors(t, e);
      && (BadBackend in errors <==> !known)
      && (BadAuth in errors <==> known && (a == NoAuth || a.OtherAuth?))
      && (FixtureClaimsProvider in errors <==> b == Fixture && p != NoProvider && p != FixtureProvider)
      && (BadProvider in errors <==> known && b != Fixture && p != Anthropic && p != OpenAi)
      && (ProviderConflict in errors <==>
            || ((b == AnthropicApi || b == ClaudeCli) && p != Anthropic)
            || ((b == CodexCli || b == OpenAiApi) && p != OpenAi))
      && (AuthConflict in errors <==>
            || ((b == AnthropicApi || b == OpenAiApi) && a != ApiKeyEnv)
            || ((b == ClaudeCli || b == CodexCli) && a != CliAuth)
            || (b == DockerLiveAi && a != ExternalHarness) || (b == Fixture && a != NotRequired))
      && (ModelConflict in errors <==>
            known && t.infer(e.model) != NoProvider && p != NoProvider && p != FixtureProvider && p != t.infer(e.model))
  {
  }

  /** An entry by itself is refused exactly for an unknown provider, backend or auth mode, for a provider
      without a model, or for a model without a provider that names none. */
  lemma EntryRefusedExactlyWhen(t: Text, e: Entry)
    ensures !EntryAccepted(t, e) <==>
      || e.provider == FixtureProvider || e.provider.OtherProvider? || e.backend.OtherBackend? || e.auth.OtherAuth?
      || (e.provider != NoProvider && e.model == "")
      || (e.provider == NoProvider && e.model != "" && t.infer(e.model) == NoProvider)
  {
  }

  /** A configuration is accepted exactly when every entry is, every role is a known one, and everything that
      the default or a role resolves to is either wholly blank or routed with what follows from it. */
  lemma AcceptedExactlyWhen(t: Text, c: Config)
    requires Sound(t)
    ensures Accepted(t, c) <==>
      && EntryAccepted(t, c.default) && Routed(t, Resolve(t, OtherRole(""), c))
      && forall role :: role in c.roles ==>
           !role.OtherRole? && EntryAccepted(t, c.roles[role]) && Routed(t, Resolve(t, role, c))
  {
    forall e: Entry ensures EffectiveAccepted(t, e) <==> Routed(t, e) {
      RoutedExactly(t, e);
    }
  }

  lemma RoutedExactly(t: Text, e: Entry)
    ensures EffectiveAccepted(t, e) <==> Routed(t, e)
  {
    if e.backend.OtherBackend? {
      EndsInExactly(e.backend.text, "_api");
      EndsInExactly(e.backend.text, "_cli");
    }
  }

  predicate Routed(t: Text, e: Entry) {
    e != Entry(NoProvider, "", NoBackend, NoAuth) ==>
      var backend := if e.backend != NoBackend then e.backend else if e.provider == OpenAi then CodexCli else ClaudeCli;
      var auth := if e.auth != NoAuth then e.auth else AuthBy(backend);
      RoutingErrors(t, Entry(e.provider, e.model, backend, auth)) == {}
  }
}
