/** Adding and removing integrations on disk: internal/integrate/integrate.go:115-253, 306-336, 361-392, 505-565.
    The YAML library is a pair of functions; a file is its bytes or absent; a rename is atomic. */
module Integrate {
  import opened Common
  import Text
  import opened DaemonConfig
  import EnvFile
  import EnvText

  // ---- The world ---------------------------------------------------------------

  datatype Files = Files(config: Option<string>, env: Option<string>)

  /** encode and decode are yaml.Marshal and the decoder; env is the daemon's environment. */
  datatype World = World(encode: Conf -> string, decode: string -> Option<Conf>, cronOk: CronSyntax,
                         env: DaemonConfig.Env)

  /** Marshal and unmarshal are mutually inverse. */
  ghost predicate Lawful(w: World) { forall c :: w.decode(w.encode(c)) == Some(c) }

  /** What the daemon would run with, None when it would refuse to start. */
  ghost function Loaded(w: World, config: Option<string>): Option<Conf> {
    if config.None? then None
    else match w.decode(config.value)
      case None => None
      case Some(c) => DaemonConfig.Parse(c, w.env, w.cronOk)
  }

  datatype AddSpec = AddSpec(name: string, transport: string, url: string, command: string, args: seq<string>,
                             authEnv: string, token: string, extraEnv: map<string, string>,
                             stdioEnv: map<string, string>)

  datatype Rollback = Restored | Lost(bytes: Option<string>)

  type Merge = (string, map<string, string>, set<string>) -> string

  /** Environment of one call: which I/O steps fail, how a rollback write ends, and the result of
      the env merge (some order of the appended keys). */
  datatype Oracle = Oracle(readFails: bool, configFails: bool, envFails: bool, rollback: Rollback, merge: Merge)

  ghost predicate Merges(m: Merge) {
    forall text, kv, del :: EnvFile.Merged(text, kv, del, m(text, kv, del))
  }

  datatype Call = Add(spec: AddSpec, o: Oracle) | Remove(name: string, o: Oracle)

  datatype Err = Invalid | Unreadable | AlreadyExists | NotFound | ConfigWrite | EnvWrite | LockTimeout

  type Result = Option<Err>

  // ---- One call, in the stages the lock protects --------------------------------------

  predicate ValidateAdd(s: AddSpec) {
    && !Text.Blank(s.name)
    && ((s.transport == "http" && !Text.Blank(s.url)) || (s.transport == "stdio" && !Text.Blank(s.command)))
    && (s.authEnv != "" ==> EnvFile.ValidEnvKey(s.authEnv))
    && (forall k :: k in s.extraEnv ==> EnvFile.ValidEnvKey(k))
    && (forall k :: k in s.stdioEnv ==> EnvFile.ValidEnvKey(k))
  }

  function NewClient(s: AddSpec): Client {
    Client(s.name, s.transport, s.url, s.command, s.args, s.authEnv, s.stdioEnv)
  }

  /** ExtraEnv, with the token under AuthEnv winning. */
  function EnvPairs(s: AddSpec): map<string, string> {
    if s.authEnv != "" && s.token != "" then s.extraEnv[s.authEnv := s.token] else s.extraEnv
  }

  predicate HasName(cs: seq<Client>, name: string) { exists i :: 0 <= i < |cs| && cs[i].name == name }

  function Without(cs: seq<Client>, name: string): seq<Client> {
    if cs == [] then []
    else (if cs[0].name == name then [] else [cs[0]]) + Without(cs[1..], name)
  }

  /** The last client with this name. */
  function Lookup(cs: seq<Client>, name: string): Client
    requires HasName(cs, name)
  {
    if cs[|cs| - 1].name == name then cs[|cs| - 1] else Lookup(cs[..|cs| - 1], name)
  }

  /** The arguments fail validation, which comes before the lock. */
  predicate BadCall(call: Call) {
    match call
    case Add(spec, _) => !ValidateAdd(spec)
    case Remove(name, _) => Text.Blank(name)
  }

  /** What a call decides to do after reading the config: refuse, or write and then edit the env file. */
  datatype Plan = Refuse(e: Err) | Write(bytes: string, prev: string, kv: map<string, string>, del: set<string>)

  ghost function Decide(w: World, config: Option<string>, call: Call): Plan {
    if BadCall(call) then Refuse(Invalid)
    else if call.o.readFails || Loaded(w, config).None? then Refuse(Unreadable)
    else
      var c := Loaded(w, config).value;
      match call
      case Add(spec, _) =>
        if HasName(c.clients, spec.name) then Refuse(AlreadyExists)
        else Write(w.encode(c.(clients := c.clients + [NewClient(spec)])), config.value, EnvPairs(spec), {})
      case Remove(name, _) =>
        if !HasName(c.clients, name) then Refuse(NotFound)
        else
          var auth := Lookup(c.clients, name).authEnv;
          Write(w.encode(c.(clients := Without(c.clients, name))), config.value, map[],
                if auth == "" then {} else {auth})
  }

  function FileText(env: Option<string>): string { if env.Some? then env.value else "" }

  /** The env step, and the rollback of the config when it fails. */
  function EnvStage(fs: Files, p: Plan, o: Oracle): (Files, Result)
    requires p.Write?
  {
    if p.kv == map[] && p.del == {} then (fs, None)
    else if o.envFails then
      (fs.(config := if o.rollback.Restored? then Some(p.prev) else o.rollback.bytes), Some(EnvWrite))
    else (fs.(env := Some(o.merge(FileText(fs.env), p.kv, p.del))), None)
  }

  function WriteStage(fs: Files, p: Plan, o: Oracle): (Files, Result) {
    match p
    case Refuse(e) => (fs, Some(e))
    case Write(bytes, _, _, _) =>
      if o.configFails then (fs, Some(ConfigWrite)) else EnvStage(fs.(config := Some(bytes)), p, o)
  }

  /** A whole call on its own. */
  ghost function Effect(w: World, fs: Files, call: Call): (Files, Result) {
    WriteStage(fs, Decide(w, fs.config, call), call.o)
  }

  // ---- What one call guarantees -----------------------------------------------------------

  lemma DecideRemembers(w: World, config: Option<string>, call: Call)
    ensures var p := Decide(w, config, call); p.Write? ==> config == Some(p.prev)
    ensures var p := Decide(w, config, call); p.Refuse? ==> p.e != EnvWrite
  {
  }

  lemma StageError(fs: Files, p: Plan, o: Oracle)
    requires p.Write? ==> fs.config == Some(p.prev)
    requires p.Refuse? ==> p.e != EnvWrite
    ensures var (fs', r) := WriteStage(fs, p, o);
            r.Some? ==> fs'.env == fs.env &&
                        (fs' == fs <==> !(r == Some(EnvWrite) && o.rollback.Lost? && o.rollback.bytes != fs.config))
  {
  }

  /** A call that fails leaves both files as they were, except exactly when the env write failed
      and the rollback write did not restore the previous bytes. */
  lemma ErrorChangesNothing(w: World, fs: Files, call: Call)
    ensures var (fs', r) := Effect(w, fs, call);
            r.Some? ==> fs'.env == fs.env &&
                        (fs' == fs <==>
                           !(r == Some(EnvWrite) && call.o.rollback.Lost? && call.o.rollback.bytes != fs.config))
  {
    DecideRemembers(w, fs.config, call);
    StageError(fs, Decide(w, fs.config, call), call.o);
  }

  lemma {:induction false} WithoutOk(cs: seq<Client>, name: string)
    requires ClientsOk(cs)
    ensures ClientsOk(Without(cs, name)) && !HasName(Without(cs, name), name)
    ensures forall c :: c in Without(cs, name) ==> c in cs
  {
    if cs != [] {
      var t := cs[1..];
      WithoutOk(t, name);
      var r := Without(cs, name);
      if cs[0].name != name {
        forall i, j | 0 <= i < j < |r| ensures r[i].name != r[j].name {
          assert r[j] == Without(t, name)[j - 1] && r[j] in t;
          if i > 0 { assert r[i] == Without(t, name)[i - 1]; }
        }
        assert r == [cs[0]] + Without(t, name);
      }
    }
  }

  lemma ExtendedOk(cs: seq<Client>, s: AddSpec)
    requires ClientsOk(cs) && ValidateAdd(s) && !HasName(cs, s.name)
    ensures ClientsOk(cs + [NewClient(s)])
  {
    var all := cs + [NewClient(s)];
    forall i, j | 0 <= i < j < |all| ensures all[i].name != all[j].name {
      assert all[i] == cs[i];
    }
  }

  lemma LoadedClientsOk(w: World, config: Option<string>)
    requires Loaded(w, config).Some?
    ensures ClientsOk(Loaded(w, config).value.clients)
  {
  }

  /** Writing a loaded configuration with another acceptable client list back is loaded as written. */
  lemma WrittenReloads(w: World, config: Option<string>, clients: seq<Client>)
    requires Lawful(w) && Loaded(w, config).Some? && ClientsOk(clients)
    ensures var l := Loaded(w, config).value.(clients := clients);
            Loaded(w, Some(w.encode(l))) == Some(l)
  {
    LoadedReloads(w.decode(config.value).value, w.env, w.cronOk, clients);
  }

  /** The client list a successful call leaves behind. */
  ghost function After(call: Call, cs: seq<Client>): seq<Client> {
    match call
    case Add(spec, _) => cs + [NewClient(spec)]
    case Remove(name, _) => Without(cs, name)
  }

  ghost predicate Fits(call: Call, cs: seq<Client>) {
    match call
    case Add(spec, _) => ValidateAdd(spec) && !HasName(cs, spec.name)
    case Remove(name, _) => HasName(cs, name)
  }

  lemma CallWrites(w: World, fs: Files, call: Call)
    ensures var (fs', r) := Effect(w, fs, call);
            r.None? ==>
              && Loaded(w, fs.config).Some?
              && var c := Loaded(w, fs.config).value;
                 Fits(call, c.clients) && fs'.config == Some(w.encode(c.(clients := After(call, c.clients))))
  {
  }

  lemma AfterOk(call: Call, cs: seq<Client>)
    requires ClientsOk(cs) && Fits(call, cs)
    ensures ClientsOk(After(call, cs))
  {
    match call
    case Add(spec, _) => ExtendedOk(cs, spec);
    case Remove(name, _) => WithoutOk(cs, name);
  }

  /** A successful call needs a config the daemon accepts and leaves one: the same configuration with
      exactly the one integration added or taken away, its names pairwise distinct. */
  lemma CallStaysLoadable(w: World, fs: Files, call: Call)
    requires Lawful(w)
    ensures var (fs', r) := Effect(w, fs, call);
            r.None? ==>
              && Loaded(w, fs.config).Some?
              && var c := Loaded(w, fs.config).value;
                 && Fits(call, c.clients)
                 && ClientsOk(After(call, c.clients))
                 && Loaded(w, fs'.config) == Some(c.(clients := After(call, c.clients)))
  {
    CallWrites(w, fs, call);
    if Effect(w, fs, call).1.None? {
      var cs := Loaded(w, fs.config).value.clients;
      LoadedClientsOk(w, fs.config);
      AfterOk(call, cs);
      WrittenReloads(w, fs.config, After(call, cs));
    }
  }

  lemma {:induction false} WithoutNew(cs: seq<Client>, c: Client)
    requires !HasName(cs, c.name)
    ensures Without(cs + [c], c.name) == cs
  {
    if cs == [] {
      assert [c][1..] == [];
    } else {
      assert !HasName(cs[1..], c.name) by {
        forall i | 0 <= i < |cs[1..]| ensures cs[1..][i].name != c.name { assert cs[1..][i] == cs[i + 1]; }
      }
      WithoutNew(cs[1..], c);
      assert (cs + [c])[1..] == cs[1..] + [c];
    }
  }

  /** Add followed by Remove of the same name gives back exactly the configuration there was. */
  lemma AddThenRemove(w: World, fs: Files, spec: AddSpec, o1: Oracle, o2: Oracle)
    requires Lawful(w)
    ensures var (fs1, r1) := Effect(w, fs, Add(spec, o1));
            var (fs2, r2) := Effect(w, fs1, Remove(spec.name, o2));
            r1.None? && r2.None? ==> Loaded(w, fs2.config) == Loaded(w, fs.config)
  {
    var (fs1, r1) := Effect(w, fs, Add(spec, o1));
    var (fs2, r2) := Effect(w, fs1, Remove(spec.name, o2));
    if r1.None? && r2.None? {
      CallStaysLoadable(w, fs, Add(spec, o1));
      CallStaysLoadable(w, fs1, Remove(spec.name, o2));
      WithoutNew(Loaded(w, fs.config).value.clients, NewClient(spec));
    }
  }

  // ---- When a call goes through, and what it records ------------------------------------------

  /** What validation demands of the arguments of Add. */
  ghost predicate Wellformed(s: AddSpec) {
    && !Text.Blank(s.name)
    && (s.transport == "http" || s.transport == "stdio")
    && !Text.Blank(if s.transport == "http" then s.url else s.command)
    && (s.authEnv == "" || EnvFile.ValidEnvKey(s.authEnv))
    && forall k :: k in s.extraEnv || k in s.stdioEnv ==> EnvFile.ValidEnvKey(k)
  }

  /** Add refuses, in this order, malformed arguments, an unreadable or unacceptable config and a name in use,
      and then fails only if a write fails; it succeeds exactly when nothing of this holds. */
  lemma AddSucceedsIff(w: World, fs: Files, spec: AddSpec, o: Oracle)
    ensures var r := Effect(w, fs, Add(spec, o)).1;
            var bad := !Wellformed(spec);
            var unread := o.readFails || Loaded(w, fs.config).None?;
            && (r == Some(Invalid) <==> bad)
            && (r == Some(Unreadable) <==> !bad && unread)
            && (!bad && !unread ==>
                  var taken := exists i :: 0 <= i < |Loaded(w, fs.config).value.clients|
                                           && Loaded(w, fs.config).value.clients[i].name == spec.name;
                  && (r == Some(AlreadyExists) <==> taken)
                  && (r == Some(ConfigWrite) <==> !taken && o.configFails)
                  && (r == Some(EnvWrite) <==> !taken && !o.configFails && o.envFails && EnvPairs(spec) != map[])
                  && (r.None? <==> !taken && !o.configFails && (o.envFails ==> EnvPairs(spec) == map[])))
  {
    assert ValidateAdd(spec) <==> Wellformed(spec);
  }

  /** Remove likewise: a blank name, an unreadable or unacceptable config, a name not in use, a failed write. */
  lemma RemoveSucceedsIff(w: World, fs: Files, name: string, o: Oracle)
    ensures var r := Effect(w, fs, Remove(name, o)).1;
            var unread := o.readFails || Loaded(w, fs.config).None?;
            && (r == Some(Invalid) <==> Text.Blank(name))
            && (r == Some(Unreadable) <==> !Text.Blank(name) && unread)
            && (!Text.Blank(name) && !unread ==>
                  var cs := Loaded(w, fs.config).value.clients;
                  var there := exists i :: 0 <= i < |cs| && cs[i].name == name;
                  && (r == Some(NotFound) <==> !there)
                  && (r == Some(ConfigWrite) <==> there && o.configFails)
                  && (there ==> (r == Some(EnvWrite) <==>
                                   !o.configFails && o.envFails && Lookup(cs, name).authEnv != ""))
                  && (r.None? <==> there && !o.configFails && (o.envFails ==> Lookup(cs, name).authEnv == "")))
  {
  }

  /** A successful Add records one more client, last, with every field as asked for. */
  lemma AddRecords(w: World, fs: Files, spec: AddSpec, o: Oracle)
    requires Lawful(w) && Effect(w, fs, Add(spec, o)).1.None?
    ensures Loaded(w, fs.config).Some? && Loaded(w, Effect(w, fs, Add(spec, o)).0.config).Some?
    ensures var before := Loaded(w, fs.config).value.clients;
            var after := Loaded(w, Effect(w, fs, Add(spec, o)).0.config).value.clients;
            && |after| == |before| + 1 && after[..|before|] == before
            && var c := after[|before|];
               && c.name == spec.name && c.transport == spec.transport && c.url == spec.url
               && c.command == spec.command && c.args == spec.args && c.authEnv == spec.authEnv
               && c.env == spec.stdioEnv
  {
    CallStaysLoadable(w, fs, Add(spec, o));
  }

  /** The pairs an Add writes to the env file: the extra ones, and the token under its variable, which wins. */
  lemma EnvPairsAre(s: AddSpec, k: string)
    ensures var token := k == s.authEnv && k != "" && s.token != "";
            && (k in EnvPairs(s) <==> token || k in s.extraEnv)
            && (token ==> EnvPairs(s)[k] == s.token)
            && (!token && k in s.extraEnv ==> EnvPairs(s)[k] == s.extraEnv[k])
  {
  }

  /** A successful Remove keeps every other client, in order. */
  lemma {:induction false} WithoutIs(cs: seq<Client>, name: string)
    ensures Without(cs, name) == Filter(cs, (c: Client) => c.name != name)
  {
    if cs != [] { WithoutIs(cs[1..], name); }
  }

  lemma RemoveKeepsOthers(w: World, fs: Files, name: string, o: Oracle)
    requires Lawful(w) && Effect(w, fs, Remove(name, o)).1.None?
    ensures Loaded(w, fs.config).Some? && Loaded(w, Effect(w, fs, Remove(name, o)).0.config).Some?
    ensures Loaded(w, Effect(w, fs, Remove(name, o)).0.config).value.clients
         == Filter(Loaded(w, fs.config).value.clients, (c: Client) => c.name != name)
  {
    CallStaysLoadable(w, fs, Remove(name, o));
    WithoutIs(Loaded(w, fs.config).value.clients, name);
  }

  // ---- The env file ---------------------------------------------------------------------------

  function Bindings(env: Option<string>, k: string): seq<string> {
    Filter(Text.SplitLines(FileText(env)), EnvFile.IsFor(k))
  }

  lemma PairsClean(s: AddSpec)
    requires ValidateAdd(s)
    ensures EnvFile.Clean(EnvPairs(s), {})
  {
  }

  lemma AddEnv(w: World, fs: Files, spec: AddSpec, o: Oracle)
    requires Effect(w, fs, Add(spec, o)).1.None?
    ensures ValidateAdd(spec)
    ensures Effect(w, fs, Add(spec, o)).0.env ==
              if EnvPairs(spec) == map[] then fs.env else Some(o.merge(FileText(fs.env), EnvPairs(spec), {}))
  {
  }

  /** After a successful Add any other key keeps exactly the bindings it had if and only if no secret brings
      a line of its own that assigns it: values are written with their newlines, unchecked. */
  lemma AddKeepsOthers(w: World, fs: Files, spec: AddSpec, o: Oracle, k: string)
    requires Merges(o.merge) && k != "" && k !in EnvPairs(spec)
    requires Effect(w, fs, Add(spec, o)).1.None?
    ensures Bindings(Effect(w, fs, Add(spec, o)).0.env, k) == Bindings(fs.env, k) <==> !EnvText.Leaks(EnvPairs(spec), k)
  {
    var kv := EnvPairs(spec);
    AddEnv(w, fs, spec, o);
    if kv != map[] {
      PairsClean(spec);
      var kept := EnvText.MergeBinds(FileText(fs.env), kv, {}, o.merge(FileText(fs.env), kv, {}), k);
    }
  }

  /** After a successful Add each pair is bound, and only to its whole value, if and only if that value has
      one line and every line any secret brings for the key says the same. */
  lemma AddBindsSecrets(w: World, fs: Files, spec: AddSpec, o: Oracle, k: string)
    requires Merges(o.merge) && k in EnvPairs(spec)
    requires Effect(w, fs, Add(spec, o)).1.None?
    ensures var r, kv := Bindings(Effect(w, fs, Add(spec, o)).0.env, k), EnvPairs(spec);
            && r != []
            && ((forall ln :: ln in r ==> ln == k + "=" + kv[k]) <==>
                  && '\n' !in kv[k]
                  && forall ln :: EnvText.Stray(kv, ln) && EnvFile.EnvLineKey(ln) == k ==> ln == k + "=" + kv[k])
  {
    AddEnv(w, fs, spec, o);
    PairsClean(spec);
    EnvText.ValueBinds(FileText(fs.env), EnvPairs(spec), {}, o.merge(FileText(fs.env), EnvPairs(spec), {}), k);
  }

  function TwoLineToken(): AddSpec { AddSpec("n", "http", "u", "", [], "A", "x\nB=y", map[], map[]) }

  lemma TwoLineTokenValid()
    ensures ValidateAdd(TwoLineToken()) && EnvPairs(TwoLineToken()) == map["A" := "x\nB=y"]
  {
    assert "n"[0] in "n" && "u"[0] in "u";
    assert EnvFile.ValidEnvKey("A");
  }

  /** A token with a newline passes validation and binds a key nobody named. */
  lemma NewlineTokenLeaks(w: World, fs: Files, o: Oracle)
    requires Merges(o.merge)
    ensures ValidateAdd(TwoLineToken()) && "B" !in EnvPairs(TwoLineToken())
    ensures Effect(w, fs, Add(TwoLineToken(), o)).1.None? ==>
              Bindings(Effect(w, fs, Add(TwoLineToken(), o)).0.env, "B") != Bindings(fs.env, "B")
  {
    TwoLineTokenValid();
    EnvText.TwoLineValue();
    if Effect(w, fs, Add(TwoLineToken(), o)).1.None? { AddKeepsOthers(w, fs, TwoLineToken(), o, "B"); }
  }

  // ---- The environment of the restarted daemon ------------------------------------------------

  /** The world with the environment the daemon has after its next start. */
  function Restarted(w: World, env: DaemonConfig.Env): World { w.(env := env) }

  /** The env file is also where overriding variables come from. After a successful call the daemon loads the
      written config under another environment if and only if the overridden agent settings are in order
      and no bootstrap task is synthesized without a prompt. */
  lemma RestartLoads(w: World, fs: Files, call: Call, env: DaemonConfig.Env)
    requires Lawful(w) && Effect(w, fs, call).1.None?
    ensures Loaded(w, fs.config).Some?
    ensures var c := Loaded(w, fs.config).value;
            Loaded(Restarted(w, env), Effect(w, fs, call).0.config).Some? <==>
              AgentOk(DefaultAgent(c.agent, env)) && !PromptMissing(c, env)
  {
    CallWrites(w, fs, call);
    var c := Loaded(w, fs.config).value;
    var c' := c.(clients := After(call, c.clients));
    LoadedAcceptable(w, fs.config);
    AfterOk(call, c.clients);
    RestartAccepts(c', env, w.cronOk);
    assert w.decode(w.encode(c')) == Some(c');
  }

  lemma LoadedAcceptable(w: World, config: Option<string>)
    requires Loaded(w, config).Some?
    ensures Acceptable(Loaded(w, config).value, w.cronOk)
  {
  }

  /** A secret under an overriding variable passes validation, and no config loads under it. */
  lemma OverrideRefused(w: World, config: Option<string>, name: string, url: string, env: DaemonConfig.Env)
    requires !Text.Blank(name) && !Text.Blank(url)
    requires DaemonConfig.Getenv(env, "AGENT_OPS_PROVIDER") == "bogus"
    ensures ValidateAdd(AddSpec(name, "http", url, "", [], "", "", map["AGENT_OPS_PROVIDER" := "bogus"], map[]))
    ensures Loaded(Restarted(w, env), config).None?
  {
    assert EnvFile.ValidEnvKey("AGENT_OPS_PROVIDER");
    assert "bogus" !in PROVIDERS;
  }

  ghost predicate CleanAuth(w: World, fs: Files, name: string) {
    && Loaded(w, fs.config).Some? && HasName(Loaded(w, fs.config).value.clients, name)
  }

  lemma RemoveEnv(w: World, fs: Files, name: string, o: Oracle)
    requires Effect(w, fs, Remove(name, o)).1.None?
    ensures CleanAuth(w, fs, name)
    ensures var auth := Lookup(Loaded(w, fs.config).value.clients, name).authEnv;
            Effect(w, fs, Remove(name, o)).0.env ==
              if auth == "" then fs.env else Some(o.merge(FileText(fs.env), map[], {auth}))
  {
  }

  /** Remove takes away every binding of the removed integration's AuthEnv and of no other key: a
      remaining integration keeps its secret exactly when it does not share that key (or had none). */
  lemma RemoveDropsKey(w: World, fs: Files, name: string, o: Oracle, other: Client)
    requires Merges(o.merge) && Effect(w, fs, Remove(name, o)).1.None? && other.authEnv != ""
    ensures CleanAuth(w, fs, name)
    ensures var auth := Lookup(Loaded(w, fs.config).value.clients, name).authEnv;
            var fs' := Effect(w, fs, Remove(name, o)).0;
            && (other.authEnv == auth ==> Bindings(fs'.env, auth) == [])
            && (other.authEnv != auth ==> Bindings(fs'.env, other.authEnv) == Bindings(fs.env, other.authEnv))
  {
    RemoveEnv(w, fs, name, o);
    KeyDropped(fs.env, Lookup(Loaded(w, fs.config).value.clients, name).authEnv, o.merge, other.authEnv);
  }

  lemma KeyDropped(env: Option<string>, auth: string, m: Merge, k: string)
    requires Merges(m) && k != ""
    ensures var env' := if auth == "" then env else Some(m(FileText(env), map[], {auth}));
            Bindings(env', k) == if k == auth then [] else Bindings(env, k)
  {
    if auth != "" {
      var kept := EnvText.MergeBinds(FileText(env), map[], {auth}, m(FileText(env), map[], {auth}), k);
      assert !EnvText.Leaks(map[], k);
    }
  }

  // ---- The calls as the source runs them ----------------------------------------------------------

  class Disk {
    var config: Option<string>
    var env: Option<string>

    function Now(): Files
      reads this
    {
      Files(config, env)
    }

    method ReadConfig(w: World, fails: bool) returns (r: Option<(Conf, string)>)
      ensures r.Some? <==> !fails && Loaded(w, config).Some?
      ensures r.Some? ==> Loaded(w, config) == Some(r.value.0) && config == Some(r.value.1)
    {
      if fails || config.None? {
        return None;
      }
      var decoded := w.decode(config.value);
      if decoded.None? {
        return None;
      }
      var c := ParseConf(decoded.value, w.env, w.cronOk);
      if c.None? {
        return None;
      }
      return Some((c.value, config.value));
    }

    /** The env edit after the config has been replaced, with its rollback. */
    method SpliceEnv(prev: string, kv: map<string, string>, del: set<string>, o: Oracle) returns (err: Result)
      modifies this
      ensures forall bytes :: (Now(), err) == EnvStage(old(Now()), Write(bytes, prev, kv, del), o)
    {
      if kv == map[] && del == {} {
        return None;
      }
      if o.envFails {
        config := if o.rollback.Restored? then Some(prev) else o.rollback.bytes;
        return Some(EnvWrite);
      }
      var existing := if env.Some? then env.value else "";
      env := Some(o.merge(existing, kv, del));
      return None;
    }

    method FindName(cs: seq<Client>, name: string) returns (found: bool)
      ensures found <==> HasName(cs, name)
    {
      var i := 0;
      while i < |cs|
        invariant 0 <= i <= |cs| && forall j :: 0 <= j < i ==> cs[j].name != name
      {
        if cs[i].name == name {
          return true;
        }
        i := i + 1;
      }
      return false;
    }

    /** The filtering loop of Remove: keeps the others in order and remembers the match. */
    method Split(cs: seq<Client>, name: string) returns (out: seq<Client>, removed: Option<Client>)
      ensures out == Without(cs, name)
      ensures removed == if HasName(cs, name) then Some(Lookup(cs, name)) else None
    {
      out, removed := [], None;
      var i := 0;
      while i < |cs|
        invariant 0 <= i <= |cs|
        invariant out + Without(cs[i..], name) == Without(cs, name)
        invariant removed == if HasName(cs[..i], name) then Some(Lookup(cs[..i], name)) else None
      {
        WithoutHead(out, cs[i..], name);
        assert cs[i..][1..] == cs[i + 1..];
        assert cs[..i + 1][..i] == cs[..i];
        HasNameSnoc(cs, i, name);
        if cs[i].name == name {
          removed := Some(cs[i]);
        } else {
          out := out + [cs[i]];
        }
        i := i + 1;
      }
      assert cs[..i] == cs;
    }

    method AddIntegration(w: World, spec: AddSpec, o: Oracle) returns (err: Result)
      modifies this
      ensures (Now(), err) == Effect(w, old(Now()), Add(spec, o))
    {
      if !ValidateAdd(spec) {
        return Some(Invalid);
      }
      var got := ReadConfig(w, o.readFails);
      if got.None? {
        return Some(Unreadable);
      }
      var (c, prev) := got.value;
      var dup := FindName(c.clients, spec.name);
      if dup {
        return Some(AlreadyExists);
      }
      c := c.(clients := c.clients + [NewClient(spec)]);
      if o.configFails {
        return Some(ConfigWrite);
      }
      config := Some(w.encode(c));
      var pairs := spec.extraEnv;
      if spec.authEnv != "" && spec.token != "" {
        pairs := pairs[spec.authEnv := spec.token];
      }
      err := SpliceEnv(prev, pairs, {}, o);
      assert Decide(w, old(config), Add(spec, o)) == Write(w.encode(c), prev, pairs, {});
    }

    method RemoveIntegration(w: World, name: string, o: Oracle) returns (err: Result)
      modifies this
      ensures (Now(), err) == Effect(w, old(Now()), Remove(name, o))
    {
      Text.TrimBlank(name);
      if Text.TrimSpace(name) == "" {
        return Some(Invalid);
      }
      var got := ReadConfig(w, o.readFails);
      if got.None? {
        return Some(Unreadable);
      }
      var (c, prev) := got.value;
      DecideRemove(w, config, name, o, c);
      var out, removed := Split(c.clients, name);
      if removed.None? {
        return Some(NotFound);
      }
      c := c.(clients := out);
      if o.configFails {
        return Some(ConfigWrite);
      }
      config := Some(w.encode(c));
      var del: set<string> := if removed.value.authEnv == "" then {} else {removed.value.authEnv};
      err := SpliceEnv(prev, map[], del, o);
    }
  }

  lemma DecideRemove(w: World, config: Option<string>, name: string, o: Oracle, c: Conf)
    requires !Text.Blank(name) && !o.readFails && config.Some? && Loaded(w, config) == Some(c)
    ensures Decide(w, config, Remove(name, o)) ==
              if !HasName(c.clients, name) then Refuse(NotFound)
              else Write(w.encode(c.(clients := Without(c.clients, name))), config.value, map[],
                         if Lookup(c.clients, name).authEnv == "" then {} else {Lookup(c.clients, name).authEnv})
  {
  }

  lemma HasNameSnoc(cs: seq<Client>, i: nat, name: string)
    requires i < |cs|
    ensures HasName(cs[..i + 1], name) <==> HasName(cs[..i], name) || cs[i].name == name
  {
    assert cs[..i + 1][i] == cs[i];
    if HasName(cs[..i], name) {
      var j :| 0 <= j < i && cs[..i][j].name == name;
      assert cs[..i + 1][j].name == name;
    }
  }

  lemma WithoutHead(out: seq<Client>, cs: seq<Client>, name: string)
    requires cs != []
    ensures out + Without(cs, name) == (if cs[0].name == name then out else out + [cs[0]]) + Without(cs[1..], name)
  {
  }
}
