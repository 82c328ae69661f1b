/** Defaulting and validation of the daemon's configuration: internal/config/config.go:180-425.
    Conf is a decoded file; the environment is a fixed map; cron syntax is a predicate. */
module DaemonConfig {
  import opened Common
  import Text

  datatype Schedule = Schedule(name: string, cron: string, prompt: string, tools: seq<string>, model: string,
                               verifyPrompt: string, verifyModel: string, enabled: Option<bool>)

  datatype Client = Client(name: string, transport: string, url: string, command: string, args: seq<string>,
                           authEnv: string, env: map<string, string>)

  /** taskTimeout in nanoseconds. */
  datatype Agent = Agent(provider: string, model: string, apiKeyEnv: string, maxToolCalls: int, taskTimeout: int)

  datatype Conf = Conf(stateDir: string, agent: Agent, schedules: seq<Schedule>, bootstrap: Option<Schedule>,
                       listenAddr: string, tokenEnv: string, clients: seq<Client>)

  type Env = map<string, string>

  function Getenv(env: Env, key: string): string {
    if key in env then Text.TrimSpace(env[key]) else ""
  }

  function OrElse(s: string, d: string): string { if s == "" then d else s }

  // ---- Defaults -------------------------------------------------------------------

  const SECOND: int := 1_000_000_000

  /** 64-bit two's complement, for the millisecond conversion. */
  function Int64(n: int): int {
    (n + 0x8000_0000_0000_0000) % 0x1_0000_0000_0000_0000 - 0x8000_0000_0000_0000
  }

  const SYNTHESIZED := Schedule("bootstrap", "@yearly", "", ["shell"], "", "", "", None)

  function BootstrapOr(b: Option<Schedule>): Schedule { if b.Some? then b.value else SYNTHESIZED }

  function PositiveInt(v: string): Option<int> {
    match Text.Atoi(v)
    case Some(n) => if v != "" && n > 0 then Some(n) else None
    case None => None
  }

  /** Index of the first schedule with this name. */
  function FirstNamed(ss: seq<Schedule>, name: string): (r: Option<nat>)
    ensures r.Some? ==> r.value < |ss| && ss[r.value].name == name
    ensures forall j :: 0 <= j < (if r.Some? then r.value else |ss|) ==> ss[j].name != name
  {
    if ss == [] then None
    else if ss[0].name == name then Some(0)
    else match FirstNamed(ss[1..], name)
      case Some(i) => Some(i + 1)
      case None => None
  }

  function DefaultAgent(a: Agent, env: Env): Agent {
    var provider := OrElse(Getenv(env, "AGENT_OPS_PROVIDER"), OrElse(a.provider, "claude"));
    var turns := PositiveInt(Getenv(env, "AGENT_OPS_BOOTSTRAP_MAX_TURNS"));
    var ms := PositiveInt(Getenv(env, "AGENT_OPS_BOOTSTRAP_TIMEOUT_MS"));
    a.(provider := provider,
       maxToolCalls := if turns.Some? then turns.value else if a.maxToolCalls == 0 then 25 else a.maxToolCalls,
       taskTimeout := if ms.Some? then Int64(ms.value * 1_000_000)
                      else if a.taskTimeout == 0 then 15 * 60 * SECOND else a.taskTimeout)
  }

  function DefaultBootstrap(b: Option<Schedule>, env: Env): Option<Schedule> {
    var p, m := Getenv(env, "AGENT_OPS_BOOTSTRAP_PROMPT"), Getenv(env, "AGENT_OPS_BOOTSTRAP_MODEL");
    var b1 := if p == "" then b else Some(BootstrapOr(b).(prompt := p));
    if m == "" then b1 else Some(BootstrapOr(b1).(model := m))
  }

  function DefaultSchedules(ss: seq<Schedule>, env: Env): seq<Schedule> {
    var p := Getenv(env, "AGENT_OPS_HEALTH_CHECK_PROMPT");
    match FirstNamed(ss, "hourly_health_check")
    case Some(i) => if p == "" then ss else ss[i := ss[i].(prompt := p)]
    case None => ss
  }

  function Defaults(c: Conf, env: Env): Conf {
    Conf(OrElse(c.stateDir, "/var/lib/agent-ops"), DefaultAgent(c.agent, env), DefaultSchedules(c.schedules, env),
         DefaultBootstrap(c.bootstrap, env), OrElse(c.listenAddr, ":7842"), OrElse(c.tokenEnv, "AGENT_OPS_TOKEN"),
         c.clients)
  }

  // ---- What the loader accepts --------------------------------------------------------

  type CronSyntax = string -> bool

  const PROVIDERS: set<string> := {"claude", "claude-cli", "codex", "gemini", "ollama", "none"}

  predicate AgentOk(a: Agent) {
    && a.provider in PROVIDERS
    && (a.provider == "claude" ==> a.model != "")
    && (a.apiKeyEnv == "" ==> a.provider in {"ollama", "claude-cli", "none"})
    && a.maxToolCalls >= 1
  }

  predicate ScheduleOk(s: Schedule, cronOk: CronSyntax) {
    s.name != "" && s.cron != "" && cronOk(s.cron) && !Text.Blank(s.prompt)
  }

  predicate ClientOk(c: Client) {
    && !Text.Blank(c.name)
    && ((c.transport == "http" && !Text.Blank(c.url)) || (c.transport == "stdio" && !Text.Blank(c.command)))
  }

  ghost predicate SchedulesOk(ss: seq<Schedule>, cronOk: CronSyntax) {
    && (forall i :: 0 <= i < |ss| ==> ScheduleOk(ss[i], cronOk))
    && (forall i, j :: 0 <= i < j < |ss| ==> ss[i].name != ss[j].name)
  }

  /** Every client is usable and no two share a name. */
  ghost predicate ClientsOk(cs: seq<Client>) {
    && (forall i :: 0 <= i < |cs| ==> ClientOk(cs[i]))
    && (forall i, j :: 0 <= i < j < |cs| ==> cs[i].name != cs[j].name)
  }

  ghost predicate Acceptable(c: Conf, cronOk: CronSyntax) {
    && AgentOk(c.agent)
    && SchedulesOk(c.schedules, cronOk)
    && (c.bootstrap.Some? ==> !Text.Blank(c.bootstrap.value.prompt))
    && ClientsOk(c.clients)
  }

  /** Validation names an unnamed bootstrap task. */
  function Named(c: Conf): Conf {
    if c.bootstrap.Some? && c.bootstrap.value.name == "" then
      c.(bootstrap := Some(c.bootstrap.value.(name := "bootstrap")))
    else c
  }

  /** Parse after decoding: defaults, then validation. */
  ghost function Parse(c: Conf, env: Env, cronOk: CronSyntax): Option<Conf> {
    var d := Defaults(c, env);
    if Acceptable(d, cronOk) then Some(Named(d)) else None
  }

  // ---- What loading fills in ---------------------------------------------------------------

  /** The variable holds this positive 64-bit number, spaces around it aside. */
  predicate Holds(env: Env, key: string, n: int) {
    n > 0 && Getenv(env, key) != "" && Text.Atoi(Getenv(env, key)) == Some(n)
  }

  lemma PositiveIs(env: Env, key: string)
    ensures forall n :: PositiveInt(Getenv(env, key)) == Some(n) <==> Holds(env, key, n)
    ensures PositiveInt(Getenv(env, key)).None? <==> forall n :: !Holds(env, key, n)
  {
    var v := PositiveInt(Getenv(env, key));
    assert v.Some? ==> Holds(env, key, v.value);
  }

  /** What the environment sets wins over the file, and the file over the default. */
  predicate Settles(v: string, env: string, file: string, standard: string) {
    (env != "" ==> v == env) && (env == "" && file != "" ==> v == file) && (env == "" && file == "" ==> v == standard)
  }

  /** The agent section after defaulting: who it talks to. */
  lemma DefaultAgentIs(a: Agent, env: Env)
    ensures var d := DefaultAgent(a, env);
            && d.model == a.model && d.apiKeyEnv == a.apiKeyEnv
            && Settles(d.provider, Getenv(env, "AGENT_OPS_PROVIDER"), a.provider, "claude")
  {
  }

  /** The tool-call limit after defaulting. */
  lemma DefaultToolCallsIs(a: Agent, env: Env, n: int)
    ensures var d, key := DefaultAgent(a, env), "AGENT_OPS_BOOTSTRAP_MAX_TURNS";
            && (Holds(env, key, n) ==> d.maxToolCalls == n)
            && ((forall x :: !Holds(env, key, x)) ==>
                  d.maxToolCalls == if a.maxToolCalls == 0 then 25 else a.maxToolCalls)
  {
    PositiveIs(env, "AGENT_OPS_BOOTSTRAP_MAX_TURNS");
  }

  /** The task timeout after defaulting. The variable is in milliseconds, the field in nanoseconds: it is exact as
      long as it fits 64 bits and wraps around beyond. */
  lemma DefaultTimeoutIs(a: Agent, env: Env, n: int)
    ensures var d, key := DefaultAgent(a, env), "AGENT_OPS_BOOTSTRAP_TIMEOUT_MS";
            && (Holds(env, key, n) && n * 1_000_000 <= Text.MAX_INT ==> d.taskTimeout == n * 1_000_000)
            && (Holds(env, key, n) ==> (d.taskTimeout - n * 1_000_000) % 0x1_0000_0000_0000_0000 == 0)
            && ((forall x :: !Holds(env, key, x)) ==>
                  d.taskTimeout == if a.taskTimeout == 0 then 900_000_000_000 else a.taskTimeout)
  {
    PositiveIs(env, "AGENT_OPS_BOOTSTRAP_TIMEOUT_MS");
    Int64Is(n * 1_000_000);
  }

  lemma Int64Is(n: int)
    ensures 0 <= n <= Text.MAX_INT ==> Int64(n) == n
    ensures (Int64(n) - n) % 0x1_0000_0000_0000_0000 == 0
  {
  }

  /** The bootstrap task after defaulting: the file's, or the synthesized one when a variable names a prompt or
      a model for it. */
  lemma DefaultBootstrapIs(b: Option<Schedule>, env: Env)
    ensures var p, m := Getenv(env, "AGENT_OPS_BOOTSTRAP_PROMPT"), Getenv(env, "AGENT_OPS_BOOTSTRAP_MODEL");
            var d := DefaultBootstrap(b, env);
            var from := if b.Some? then b.value else Schedule("bootstrap", "@yearly", "", ["shell"], "", "", "", None);
            && (d.None? <==> b.None? && p == "" && m == "")
            && (d.Some? ==> d.value == from.(prompt := d.value.prompt, model := d.value.model))
            && (d.Some? ==> Settles(d.value.prompt, p, from.prompt, "") && Settles(d.value.model, m, from.model, ""))
  {
  }

  /** The schedules after defaulting: only the prompt of the first health check can change. */
  lemma DefaultSchedulesAre(ss: seq<Schedule>, env: Env, i: nat)
    requires i < |ss|
    ensures var p, d := Getenv(env, "AGENT_OPS_HEALTH_CHECK_PROMPT"), DefaultSchedules(ss, env);
            && |d| == |ss|
            && d[i] == if && p != "" && ss[i].name == "hourly_health_check"
                          && (forall j :: 0 <= j < i ==> ss[j].name != "hourly_health_check")
                       then ss[i].(prompt := p) else ss[i]
  {
  }

  /** A configuration loads exactly when it is acceptable once defaulted; what is loaded is that, with a bootstrap
      task that has no name called "bootstrap". */
  lemma LoadedIs(c: Conf, env: Env, cronOk: CronSyntax)
    ensures var d, l := Defaults(c, env), Parse(c, env, cronOk);
            && (l.Some? <==> Acceptable(d, cronOk))
            && Settles(d.stateDir, "", c.stateDir, "/var/lib/agent-ops")
            && Settles(d.listenAddr, "", c.listenAddr, ":7842")
            && Settles(d.tokenEnv, "", c.tokenEnv, "AGENT_OPS_TOKEN")
            && d.clients == c.clients && d.agent == DefaultAgent(c.agent, env)
            && d.bootstrap == DefaultBootstrap(c.bootstrap, env) && d.schedules == DefaultSchedules(c.schedules, env)
            && (l.Some? ==>
                  && l.value == d.(bootstrap := l.value.bootstrap)
                  && (l.value.bootstrap.None? <==> d.bootstrap.None?)
                  && (d.bootstrap.Some? ==>
                        && l.value.bootstrap.value == d.bootstrap.value.(name := l.value.bootstrap.value.name)
                        && Settles(l.value.bootstrap.value.name, "", d.bootstrap.value.name, "bootstrap")))
  {
  }

  /** What a configuration needs to load: a known provider, with a model for claude and a key unless it needs
      none; at least one tool call; schedules and clients that are usable and distinct by name; and a prompt
      for the bootstrap task. */
  lemma AcceptableIff(c: Conf, cronOk: CronSyntax)
    ensures Acceptable(c, cronOk) <==>
              var keyless := ["claude-cli", "ollama", "none"];
              var keyed := ["claude", "codex", "gemini"];
              && (c.agent.provider in keyless || (c.agent.provider in keyed && c.agent.apiKeyEnv != ""))
              && !(c.agent.provider == "claude" && c.agent.model == "")
              && c.agent.maxToolCalls > 0
              && (forall s :: s in c.schedules ==>
                    s.name != "" && s.cron != "" && cronOk(s.cron) && !Text.Blank(s.prompt))
              && (forall i, j :: 0 <= i < j < |c.schedules| ==> c.schedules[i].name != c.schedules[j].name)
              && !(c.bootstrap.Some? && Text.Blank(c.bootstrap.value.prompt))
              && (forall m :: m in c.clients ==>
                    && !Text.Blank(m.name) && (m.transport == "http" || m.transport == "stdio")
                    && !Text.Blank(if m.transport == "http" then m.url else m.command))
              && (forall i, j :: 0 <= i < j < |c.clients| ==> c.clients[i].name != c.clients[j].name)
  {
    AgentOkIff(c.agent);
    assert forall s :: s in c.schedules ==> exists i :: 0 <= i < |c.schedules| && s == c.schedules[i];
    assert forall m :: m in c.clients ==> exists i :: 0 <= i < |c.clients| && m == c.clients[i];
  }

  lemma AgentOkIff(a: Agent)
    ensures AgentOk(a) <==>
              && (a.provider in ["claude-cli", "ollama", "none"]
                  || (a.provider in ["claude", "codex", "gemini"] && a.apiKeyEnv != ""))
              && !(a.provider == "claude" && a.model == "")
              && a.maxToolCalls > 0
  {
  }

  // ---- Defaulting settles ----------------------------------------------------------------

  lemma AgentSettles(a: Agent, env: Env)
    ensures DefaultAgent(DefaultAgent(a, env), env) == DefaultAgent(a, env)
  {
  }

  lemma BootstrapSettles(b: Option<Schedule>, env: Env, name: string)
    ensures var d := DefaultBootstrap(b, env);
            && DefaultBootstrap(d, env) == d
            && (d.Some? ==> DefaultBootstrap(Some(d.value.(name := name)), env) == Some(d.value.(name := name)))
  {
  }

  lemma SchedulesSettle(ss: seq<Schedule>, env: Env)
    ensures DefaultSchedules(DefaultSchedules(ss, env), env) == DefaultSchedules(ss, env)
  {
    var d := DefaultSchedules(ss, env);
    var i, j := FirstNamed(ss, "hourly_health_check"), FirstNamed(d, "hourly_health_check");
    forall k | 0 <= k < |ss| ensures d[k].name == ss[k].name {}
  }

  /** With a fixed environment, defaulting a defaulted configuration changes nothing. */
  lemma DefaultsIdempotent(c: Conf, env: Env)
    ensures Defaults(Defaults(c, env), env) == Defaults(c, env)
  {
    AgentSettles(c.agent, env);
    BootstrapSettles(c.bootstrap, env, "");
    SchedulesSettle(c.schedules, env);
  }

  /** A loaded configuration is a fixed point of loading, whatever client list replaces its own,
      as long as that list is itself acceptable. */
  lemma LoadedReloads(c: Conf, env: Env, cronOk: CronSyntax, clients: seq<Client>)
    requires Parse(c, env, cronOk).Some? && ClientsOk(clients)
    ensures var l := Parse(c, env, cronOk).value.(clients := clients);
            Parse(l, env, cronOk) == Some(l)
  {
    var d := Defaults(c, env);
    var l := Named(d).(clients := clients);
    AgentSettles(c.agent, env);
    BootstrapSettles(c.bootstrap, env, "bootstrap");
    SchedulesSettle(c.schedules, env);
    assert Defaults(l, env) == l;
  }

  // ---- Another environment ---------------------------------------------------------------

  /** The variables that override the file. */
  const OVERRIDES: set<string> := {
    "AGENT_OPS_PROVIDER", "AGENT_OPS_BOOTSTRAP_PROMPT", "AGENT_OPS_BOOTSTRAP_MODEL",
    "AGENT_OPS_BOOTSTRAP_MAX_TURNS", "AGENT_OPS_BOOTSTRAP_TIMEOUT_MS", "AGENT_OPS_HEALTH_CHECK_PROMPT"}

  ghost predicate SameOverrides(a: Env, b: Env) { forall v :: v in OVERRIDES ==> Getenv(a, v) == Getenv(b, v) }

  /** Loading reads nothing of the environment but the overriding variables. */
  lemma ParseReadsOverrides(c: Conf, a: Env, b: Env, cronOk: CronSyntax)
    requires SameOverrides(a, b)
    ensures Parse(c, a, cronOk) == Parse(c, b, cronOk)
  {
    assert Defaults(c, a) == Defaults(c, b);
  }

  /** A bootstrap model without a bootstrap task or prompt synthesizes a task without a prompt. */
  predicate PromptMissing(c: Conf, env: Env) {
    && c.bootstrap.None? && Getenv(env, "AGENT_OPS_BOOTSTRAP_MODEL") != ""
    && Getenv(env, "AGENT_OPS_BOOTSTRAP_PROMPT") == ""
  }

  lemma TrimmedNotBlank(env: Env, key: string)
    ensures Getenv(env, key) != "" ==> !Text.Blank(Getenv(env, key))
  {
    if Getenv(env, key) != "" {
      var left := Text.TrimLeft(env[key]);
      Text.TrimLeftBlank(env[key]);
      assert left != "" by { assert left == "" ==> Text.TrimRight(left) == ""; }
      Text.TrimRightSome(left);
      var v := Text.TrimRight(left);
      assert v[0] in v && !Text.IsSpace(v[0]);
    }
  }

  lemma SchedulesOverridden(ss: seq<Schedule>, env: Env, cronOk: CronSyntax)
    requires SchedulesOk(ss, cronOk)
    ensures SchedulesOk(DefaultSchedules(ss, env), cronOk)
  {
    TrimmedNotBlank(env, "AGENT_OPS_HEALTH_CHECK_PROMPT");
  }

  /** A configuration the daemon accepted once is accepted under another environment if and only if the
      overridden agent settings are in order and no bootstrap task is synthesized without a prompt. */
  lemma RestartAccepts(c: Conf, env: Env, cronOk: CronSyntax)
    requires Acceptable(c, cronOk)
    ensures Parse(c, env, cronOk).Some? <==> AgentOk(DefaultAgent(c.agent, env)) && !PromptMissing(c, env)
  {
    SchedulesOverridden(c.schedules, env, cronOk);
    TrimmedNotBlank(env, "AGENT_OPS_BOOTSTRAP_PROMPT");
    assert Text.Blank("");
  }

  // ---- The configuration object -----------------------------------------------------------

  class Config {
    var stateDir: string
    var agent: Agent
    var schedules: seq<Schedule>
    var bootstrap: Option<Schedule>
    var listenAddr: string
    var tokenEnv: string
    var clients: seq<Client>

    function Value(): Conf
      reads this
    {
      Conf(stateDir, agent, schedules, bootstrap, listenAddr, tokenEnv, clients)
    }

    constructor (c: Conf)
      ensures Value() == c
    {
      stateDir, agent, schedules, bootstrap := c.stateDir, c.agent, c.schedules, c.bootstrap;
      listenAddr, tokenEnv, clients := c.listenAddr, c.tokenEnv, c.clients;
    }

    method ApplyDefaults(env: Env)
      modifies this
      ensures Value() == Defaults(old(Value()), env)
    {
      DefaultTheStrings();
      DefaultTheAgent(env);
      DefaultTheBootstrap(env);
      DefaultTheHealthCheck(env);
    }

    method DefaultTheStrings()
      modifies this`stateDir, this`listenAddr, this`tokenEnv
      ensures stateDir == OrElse(old(stateDir), "/var/lib/agent-ops")
      ensures listenAddr == OrElse(old(listenAddr), ":7842") && tokenEnv == OrElse(old(tokenEnv), "AGENT_OPS_TOKEN")
    {
      if stateDir == "" { stateDir := "/var/lib/agent-ops"; }
      if listenAddr == "" { listenAddr := ":7842"; }
      if tokenEnv == "" { tokenEnv := "AGENT_OPS_TOKEN"; }
    }

    method DefaultTheAgent(env: Env)
      modifies this`agent
      ensures agent == DefaultAgent(old(agent), env)
    {
      if agent.provider == "" { agent := agent.(provider := "claude"); }
      if agent.maxToolCalls == 0 { agent := agent.(maxToolCalls := 25); }
      if agent.taskTimeout == 0 { agent := agent.(taskTimeout := 15 * 60 * SECOND); }
      var p := Getenv(env, "AGENT_OPS_PROVIDER");
      if p != "" { agent := agent.(provider := p); }
      var n := PositiveInt(Getenv(env, "AGENT_OPS_BOOTSTRAP_MAX_TURNS"));
      if n.Some? { agent := agent.(maxToolCalls := n.value); }
      var ms := PositiveInt(Getenv(env, "AGENT_OPS_BOOTSTRAP_TIMEOUT_MS"));
      if ms.Some? { agent := agent.(taskTimeout := Int64(ms.value * 1_000_000)); }
    }

    method DefaultTheBootstrap(env: Env)
      modifies this`bootstrap
      ensures bootstrap == DefaultBootstrap(old(bootstrap), env)
    {
      var p := Getenv(env, "AGENT_OPS_BOOTSTRAP_PROMPT");
      if p != "" {
        if bootstrap.None? { bootstrap := Some(SYNTHESIZED); }
        bootstrap := Some(bootstrap.value.(prompt := p));
      }
      var m := Getenv(env, "AGENT_OPS_BOOTSTRAP_MODEL");
      if m != "" {
        if bootstrap.None? { bootstrap := Some(SYNTHESIZED); }
        bootstrap := Some(bootstrap.value.(model := m));
      }
    }

    method DefaultTheHealthCheck(env: Env)
      modifies this`schedules
      ensures schedules == DefaultSchedules(old(schedules), env)
    {
      var prompt := Getenv(env, "AGENT_OPS_HEALTH_CHECK_PROMPT");
      if prompt == "" {
        return;
      }
      var i := 0;
      while i < |schedules|
        invariant 0 <= i <= |schedules| && schedules == old(schedules)
        invariant forall j :: 0 <= j < i ==> schedules[j].name != "hourly_health_check"
      {
        if schedules[i].name == "hourly_health_check" {
          schedules := schedules[i := schedules[i].(prompt := prompt)];
          return;
        }
        i := i + 1;
      }
    }

    method CheckSchedules(cronOk: CronSyntax) returns (ok: bool)
      ensures ok <==> SchedulesOk(schedules, cronOk)
    {
      var names: set<string> := {};
      var i := 0;
      while i < |schedules|
        invariant 0 <= i <= |schedules|
        invariant SchedulesOk(schedules[..i], cronOk)
        invariant forall n :: n in names <==> exists j :: 0 <= j < i && schedules[j].name == n
      {
        var s := schedules[i];
        if s.name == "" || s.name in names || s.cron == "" || !cronOk(s.cron) {
          return false;
        }
        names := names + {s.name};
        Text.TrimBlank(s.prompt);
        if Text.TrimSpace(s.prompt) == "" {
          return false;
        }
        i := i + 1;
      }
      assert schedules[..i] == schedules;
      return true;
    }

    static method CheckClient(c: Client) returns (ok: bool)
      ensures ok <==> ClientOk(c)
    {
      Text.TrimBlank(c.name);
      Text.TrimBlank(c.url);
      Text.TrimBlank(c.command);
      if Text.TrimSpace(c.name) == "" {
        return false;
      }
      if c.transport == "http" {
        if Text.TrimSpace(c.url) == "" { return false; }
      } else if c.transport == "stdio" {
        if Text.TrimSpace(c.command) == "" { return false; }
      } else {
        return false;
      }
      return true;
    }

    method CheckClients() returns (ok: bool)
      ensures ok <==> ClientsOk(clients)
    {
      var names: set<string> := {};
      var i := 0;
      while i < |clients|
        invariant 0 <= i <= |clients|
        invariant ClientsOk(clients[..i])
        invariant forall n :: n in names <==> exists j :: 0 <= j < i && clients[j].name == n
      {
        var c := clients[i];
        var fine := CheckClient(c);
        if !fine || c.name in names {
          return false;
        }
        names := names + {c.name};
        i := i + 1;
      }
      assert clients[..i] == clients;
      return true;
    }

    /** True means no error; a missing bootstrap name is filled in on the way. */
    method Validate(cronOk: CronSyntax) returns (ok: bool)
      modifies this`bootstrap
      ensures ok <==> Acceptable(old(Value()), cronOk)
      ensures ok ==> Value() == Named(old(Value()))
    {
      if agent.provider !in PROVIDERS { return false; }
      if agent.provider == "claude" && agent.model == "" { return false; }
      if agent.apiKeyEnv == ""
         && agent.provider != "ollama" && agent.provider != "claude-cli" && agent.provider != "none" {
        return false;
      }
      if agent.maxToolCalls < 1 { return false; }
      var fine := CheckSchedules(cronOk);
      if !fine { return false; }
      if bootstrap.Some? {
        if bootstrap.value.name == "" {
          bootstrap := Some(bootstrap.value.(name := "bootstrap"));
        }
        Text.TrimBlank(bootstrap.value.prompt);
        if Text.TrimSpace(bootstrap.value.prompt) == "" { return false; }
      }
      ok := CheckClients();
    }
  }

  method ParseConf(c: Conf, env: Env, cronOk: CronSyntax) returns (r: Option<Conf>)
    ensures r == Parse(c, env, cronOk)
  {
    var cfg := new Config(c);
    cfg.ApplyDefaults(env);
    var ok := cfg.Validate(cronOk);
    r := if ok then Some(cfg.Value()) else None;
  }
}
