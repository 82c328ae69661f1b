/** The tool registry: internal/tool/tool.go:57-128. */
module ToolRegistry {
  import opened Common

  datatype Tool = Tool(name: string, body: nat)

  datatype Err = NilTool | EmptyName | Duplicate

  class Registry {
    var tools: map<string, Tool>

    ghost predicate Valid()
      reads this
    {
      forall k :: k in tools ==> k != "" && tools[k].name == k
    }

    constructor ()
      ensures Valid() && tools == map[]
    {
      tools := map[];
    }

    method Register(t: Option<Tool>) returns (err: Option<Err>)
      requires Valid()
      modifies this
      ensures Valid()
      ensures err == if t.None? then Some(NilTool)
                     else if t.value.name == "" then Some(EmptyName)
                     else if t.value.name in old(tools) then Some(Duplicate) else None
      ensures tools == if err.None? then old(tools)[t.value.name := t.value] else old(tools)
    {
      if t.None? {
        return Some(NilTool);
      }
      var name := t.value.name;
      if name == "" {
        return Some(EmptyName);
      }
      if name in tools {
        return Some(Duplicate);
      }
      tools := tools[name := t.value];
      return None;
    }

    /** Finds the one registered tool that goes by this name, and nothing when there is none. */
    method Get(name: string) returns (t: Option<Tool>)
      ensures t.Some? ==> name in tools && t.value == tools[name]
      ensures t.None? ==> name !in tools
      ensures Valid() ==> (t.Some? <==> exists k :: k in tools && tools[k].name == name)
      ensures Valid() && t.Some? ==> t.value.name == name
    {
      t := if name in tools then Some(tools[name]) else None;
    }

    /** An empty allowlist means this very registry; otherwise a new one with exactly the allowed tools. */
    method Subset(allow: seq<string>) returns (r: Registry)
      requires Valid()
      ensures r.Valid()
      ensures if allow == [] then r == this
              else fresh(r) && r.tools == map k | k in tools && k in allow :: tools[k]
    {
      if |allow| == 0 {
        return this;
      }
      r := new Registry();
      var i := 0;
      while i < |allow|
        invariant 0 <= i <= |allow|
        invariant fresh(r) && r.Valid() && Valid() && tools == old(tools)
        invariant forall k :: k in r.tools <==> k in tools && k in allow[..i]
        invariant forall k :: k in r.tools ==> r.tools[k] == tools[k]
      {
        assert allow[..i + 1] == allow[..i] + [allow[i]];
        var name := allow[i];
        if name in tools {
          var _ := r.Register(Some(tools[name]));
        }
        i := i + 1;
      }
      assert allow[..i] == allow;
    }
  }
}

/** The conversation loop of the Messages API driver: internal/driver/claude/claude.go:51-234. */
module ToolLoop {
  import opened Common
  import opened ToolRegistry

  /** What a tool result says; the fixed wording around a name or a reason is left out. */
  datatype Content = NotAllowed(name: string) | ToolError(why: string) | ToolOutput(text: string)

  datatype Block =
    | Text(text: string)
    | ToolUse(id: string, name: string, input: string)
    | ToolResult(useId: string, result: Content, isError: bool)
    | OtherBlock(kind: string)

  /** A tool use picked out of a reply. */
  datatype Use = Use(id: string, name: string, input: string)

  datatype Role = User | Assistant

  datatype Message = Message(role: Role, content: seq<Block>)

  /** One HTTP round trip. */
  datatype Response = HttpError | BadStatus | Unparsable | Reply(content: seq<Block>, stopReason: string)

  /** One tool invocation. */
  datatype Invoked = Failed(why: string) | Output(text: string)

  /** The model's k-th response and the outcome of the k-th invocation, for all k. */
  datatype Oracle = Oracle(response: nat -> Response, invoke: nat -> Invoked)

  datatype RunResult = RunResult(finalMessage: string, toolCalls: nat, exhausted: bool)

  datatype Err = NoApiKey | NoModel | Transport

  function Uses(content: seq<Block>): seq<Use> {
    if content == [] then []
    else
      var b := content[|content| - 1];
      Uses(content[..|content| - 1]) + (if b.ToolUse? then [Use(b.id, b.name, b.input)] else [])
  }

  function TextOf(content: seq<Block>): string {
    if content == [] then ""
    else
      var b := content[|content| - 1];
      TextOf(content[..|content| - 1]) + (if b.Text? then b.text else "")
  }

  type Tools = map<string, Tool>

  // ---- The transcript as a function of the oracle ------------------------------

  /** The answer to one tool use when n invocations have happened before. */
  function Answer(use: Use, tools: Tools, o: Oracle, n: nat): Block {
    if use.name !in tools then
      ToolResult(use.id, NotAllowed(use.name), true)
    else match o.invoke(n)
      case Failed(why) => ToolResult(use.id, ToolError(why), true)
      case Output(text) => ToolResult(use.id, ToolOutput(text), false)
  }

  /** The uses that lead to an invocation, in order. */
  function Allowed(uses: seq<Use>, tools: Tools): seq<Use> {
    if uses == [] then []
    else
      var u := uses[|uses| - 1];
      Allowed(uses[..|uses| - 1], tools) + (if u.name in tools then [u] else [])
  }

  function Answers(uses: seq<Use>, tools: Tools, o: Oracle, n: nat): seq<Block> {
    if uses == [] then []
    else
      var rest := uses[..|uses| - 1];
      Answers(rest, tools, o, n) + [Answer(uses[|uses| - 1], tools, o, n + |Allowed(rest, tools)|)]
  }

  function RoundUses(r: Response): seq<Use> { if r.Reply? then Uses(r.content) else [] }

  function ReplyOf(r: Response): seq<Block> { if r.Reply? then r.content else [] }

  /** All invocations of the first k rounds. */
  function Invocations(tools: Tools, o: Oracle, k: nat): seq<Use> {
    if k == 0 then [] else Invocations(tools, o, k - 1) + Allowed(RoundUses(o.response(k - 1)), tools)
  }

  /** The transcript sent with request k: the user's prompt, then for each completed round the model's
      reply and the user turn that answers its tool uses. */
  function Transcript(prompt: string, tools: Tools, o: Oracle, k: nat): (msgs: seq<Message>)
    ensures |msgs| == 2 * k + 1
  {
    if k == 0 then [Message(User, [Text(prompt)])]
    else Transcript(prompt, tools, o, k - 1) + RoundTurns(tools, o, k - 1)
  }

  function RoundTurns(tools: Tools, o: Oracle, j: nat): (msgs: seq<Message>)
    ensures |msgs| == 2
  {
    var r := o.response(j);
    [Message(Assistant, ReplyOf(r)), Message(User, Answers(RoundUses(r), tools, o, |Invocations(tools, o, j)|))]
  }

  /** What a response means for the loop: a transport error, a final answer, tools to run after which
      the conversation ends anyway, or tools to run and another request. */
  datatype Kind = Broken | Final | LastTools | MoreTools

  function KindOf(r: Response): Kind {
    if !r.Reply? then Broken
    else if Uses(r.content) == [] then Final
    else if r.stopReason == "end_turn" then LastTools
    else MoreTools
  }

  function ReplyText(r: Response): string { if r.Reply? then TextOf(r.content) else "" }

  function Attempts(o: Oracle, k: nat): nat {
    if k == 0 then 0 else Attempts(o, k - 1) + |RoundUses(o.response(k - 1))|
  }

  // ---- One round -------------------------------------------------------------------

  /** Runs the tools of one round and collects the answering user turn. */
  method Invoke(uses: seq<Use>, registry: Registry, o: Oracle, n: nat)
    returns (results: seq<Block>, invoked: seq<Use>)
    ensures results == Answers(uses, registry.tools, o, n)
    ensures invoked == Allowed(uses, registry.tools)
  {
    results, invoked := [], [];
    var i := 0;
    while i < |uses|
      invariant 0 <= i <= |uses|
      invariant results == Answers(uses[..i], registry.tools, o, n)
      invariant invoked == Allowed(uses[..i], registry.tools)
    {
      var tu := uses[i];
      assert uses[..i + 1][..i] == uses[..i];
      var t := registry.Get(tu.name);
      if t.None? {
        results := results + [ToolResult(tu.id, NotAllowed(tu.name), true)];
      } else {
        var res := o.invoke(n + |invoked|);
        invoked := invoked + [tu];
        match res {
          case Failed(why) => results := results + [ToolResult(tu.id, ToolError(why), true)];
          case Output(text) => results := results + [ToolResult(tu.id, ToolOutput(text), false)];
        }
      }
      i := i + 1;
    }
    assert uses[..i] == uses;
  }

  /** Splits a reply into its text and its tool uses. */
  method Collect(content: seq<Block>) returns (text: string, uses: seq<Use>)
    ensures text == TextOf(content) && uses == Uses(content)
  {
    text, uses := "", [];
    var i := 0;
    while i < |content|
      invariant 0 <= i <= |content|
      invariant text == TextOf(content[..i]) && uses == Uses(content[..i])
    {
      assert content[..i + 1][..i] == content[..i];
      match content[i] {
        case Text(s) => text := text + s;
        case ToolUse(id, name, input) => uses := uses + [Use(id, name, input)];
        case _ =>
      }
      i := i + 1;
    }
    assert content[..i] == content;
  }

  /** The first n API requests. */
  function Requests(prompt: string, tools: Tools, o: Oracle, n: nat): (r: seq<seq<Message>>)
    ensures |r| == n
  {
    if n == 0 then [] else Requests(prompt, tools, o, n - 1) + [Transcript(prompt, tools, o, n - 1)]
  }

  lemma {:induction false} RequestAt(prompt: string, tools: Tools, o: Oracle, n: nat, k: nat)
    requires k < n
    ensures Requests(prompt, tools, o, n)[k] == Transcript(prompt, tools, o, k)
  {
    if k < n - 1 { RequestAt(prompt, tools, o, n - 1, k); }
  }

  /** The reply asks for tools, and does not say that it is the last. */
  predicate AsksForMore(r: Response) { r.Reply? && Uses(r.content) != [] && r.stopReason != "end_turn" }

  /** The conversation goes on after each of the first n replies. */
  ghost predicate Continues(o: Oracle, n: nat) { forall k :: 0 <= k < n ==> AsksForMore(o.response(k)) }

  // ---- The loop --------------------------------------------------------------------

  /** The loop's variables: transcript so far, requests sent, tools run with their input, tool uses counted. */
  datatype Conversation = Conversation(messages: seq<Message>, sent: seq<seq<Message>>, invoked: seq<Use>,
                                       asked: nat)

  function Opening(prompt: string): Conversation { Conversation([Message(User, [Text(prompt)])], [], [], 0) }

  function Sent(c: Conversation): Conversation { c.(sent := c.sent + [c.messages]) }

  /** A request, the reply to it, and the user turn that answers the reply's tool uses. */
  function Extend(c: Conversation, tools: Tools, o: Oracle, r: Response): Conversation {
    var uses := RoundUses(r);
    Conversation(c.messages + [Message(Assistant, ReplyOf(r)), Message(User, Answers(uses, tools, o, |c.invoked|))],
                 c.sent + [c.messages], c.invoked + Allowed(uses, tools), c.asked + |uses|)
  }

  /** The loop's variables after k completed rounds. */
  function After(prompt: string, tools: Tools, o: Oracle, k: nat): (c: Conversation)
    ensures |c.sent| == k
  {
    if k == 0 then Opening(prompt) else Extend(After(prompt, tools, o, k - 1), tools, o, o.response(k - 1))
  }

  datatype Ended = Ended(out: RunResult, err: Option<Err>, c: Conversation, rounds: nat)

  /** The conversation stopped after n requests: on a transport error, on a reply without tool uses, on
      end_turn after the tools were run, or because n requests were all there may be. */
  ghost predicate StoppedAt(n: nat, prompt: string, max: nat, tools: Tools, o: Oracle, e: Ended) {
    && 1 <= n <= max && Continues(o, n - 1)
    && var last := o.response(n - 1);
       if !last.Reply? then
         && e.err == Some(Transport) && e.rounds == n - 1 && e.c == Sent(After(prompt, tools, o, n - 1))
         && e.out == RunResult("", e.c.asked, false)
       else if Uses(last.content) == [] then
         && e.err.None? && e.rounds == n - 1 && e.c == Sent(After(prompt, tools, o, n - 1))
         && e.out == RunResult(TextOf(last.content), n - 1, false)
       else if last.stopReason == "end_turn" then
         && e.err.None? && e.rounds == n && e.c == After(prompt, tools, o, n)
         && e.out == RunResult(TextOf(last.content), e.c.asked, false)
       else
         && e.err.None? && e.rounds == n == max && e.c == After(prompt, tools, o, n)
         && e.out == RunResult("", e.c.asked, true)
  }

  method Run(hasKey: bool, model: string, prompt: string, maxToolCalls: int, registry: Registry, o: Oracle)
    returns (e: Ended)
    ensures !hasKey ==> e.err == Some(NoApiKey) && e.c.sent == [] && e.c.invoked == []
    ensures hasKey && model == "" ==> e.err == Some(NoModel) && e.c.sent == [] && e.c.invoked == []
    ensures hasKey && model != "" ==>
              StoppedAt(|e.c.sent|, prompt, if maxToolCalls > 0 then maxToolCalls else 25, registry.tools, o, e)
  {
    var nothing := Conversation([], [], [], 0);
    if !hasKey {
      return Ended(RunResult("", 0, false), Some(NoApiKey), nothing, 0);
    }
    if model == "" {
      return Ended(RunResult("", 0, false), Some(NoModel), nothing, 0);
    }
    e := Converse(prompt, if maxToolCalls <= 0 then 25 else maxToolCalls, registry, o);
  }

  /** Request k + 1, and the tools its reply asks for. */
  method OneRound(ghost prompt: string, k: nat, c: Conversation, registry: Registry, o: Oracle)
    returns (kind: Kind, text: string, c': Conversation)
    requires c == After(prompt, registry.tools, o, k)
    ensures kind == KindOf(o.response(k)) && text == ReplyText(o.response(k))
    ensures c' == if kind.Broken? || kind.Final? then Sent(c) else After(prompt, registry.tools, o, k + 1)
  {
    var resp := o.response(k);
    assert After(prompt, registry.tools, o, k + 1) == Extend(c, registry.tools, o, resp);
    var sent := c.sent + [c.messages];
    if !resp.Reply? {
      return Broken, "", c.(sent := sent);
    }
    var uses;
    text, uses := Collect(resp.content);
    if |uses| == 0 {
      return Final, text, c.(sent := sent);
    }
    var results, ran := Invoke(uses, registry, o, |c.invoked|);
    c' := Conversation(c.messages + [Message(Assistant, resp.content), Message(User, results)],
                       sent, c.invoked + ran, c.asked + |uses|);
    kind := if resp.stopReason == "end_turn" then LastTools else MoreTools;
  }

  /** One turn of the loop: either the conversation is over, or round k is complete and another follows. */
  method OneTurn(prompt: string, k: nat, max: nat, c: Conversation, registry: Registry, o: Oracle)
    returns (over: bool, e: Ended, c': Conversation)
    requires c == After(prompt, registry.tools, o, k) && Continues(o, k) && k < max
    ensures over ==> StoppedAt(k + 1, prompt, max, registry.tools, o, e) && |e.c.sent| == k + 1
    ensures !over ==> c' == After(prompt, registry.tools, o, k + 1) && Continues(o, k + 1)
  {
    var kind, text;
    over := true;
    kind, text, c' := OneRound(prompt, k, c, registry, o);
    e := Ended(RunResult(text, k, false), None, c', k);
    if kind == Broken {
      e := Ended(RunResult("", c.asked, false), Some(Transport), c', k);
    } else if kind == LastTools {
      e := Ended(RunResult(text, c'.asked, false), None, c', k + 1);
    } else if kind == MoreTools {
      over := false;
    }
  }

  method Converse(prompt: string, maxIter: nat, registry: Registry, o: Oracle) returns (e: Ended)
    requires maxIter > 0
    ensures StoppedAt(|e.c.sent|, prompt, maxIter, registry.tools, o, e)
  {
    var c := Conversation([Message(User, [Text(prompt)])], [], [], 0);
    var iter := 0;
    while iter < maxIter
      invariant 0 <= iter <= maxIter && Continues(o, iter)
      invariant c == After(prompt, registry.tools, o, iter)
    {
      var over;
      over, e, c := OneTurn(prompt, iter, maxIter, c, registry, o);
      if over {
        return;
      }
      iter := iter + 1;
    }
    return Ended(RunResult("", c.asked, true), None, c, iter);
  }

  /** The loop has sent the transcripts of its rounds, run the allowed tools asked for, and counted all. */
  lemma {:induction false} AfterIs(prompt: string, tools: Tools, o: Oracle, k: nat)
    ensures After(prompt, tools, o, k)
         == Conversation(Transcript(prompt, tools, o, k), Requests(prompt, tools, o, k),
                         Invocations(tools, o, k), Attempts(o, k))
  {
    if k > 0 {
      AfterIs(prompt, tools, o, k - 1);
    }
  }

  /** The loop's variables after n requests: the last round complete, or its reply not answered. */
  predicate Shape(n: nat, prompt: string, tools: Tools, o: Oracle, c: Conversation, rounds: nat) {
    || (rounds == n && c == After(prompt, tools, o, n))
    || (rounds + 1 == n && c == Sent(After(prompt, tools, o, rounds)))
  }

  lemma StoppedShape(n: nat, prompt: string, max: nat, tools: Tools, o: Oracle, e: Ended)
    requires StoppedAt(n, prompt, max, tools, o, e)
    ensures n <= max && Shape(n, prompt, tools, o, e.c, e.rounds)
  {
  }

  lemma ShapeSends(n: nat, prompt: string, tools: Tools, o: Oracle, c: Conversation, rounds: nat)
    requires Shape(n, prompt, tools, o, c, rounds)
    ensures |c.sent| == n && c.sent == Requests(prompt, tools, o, n)
    ensures n - 1 <= rounds <= n && c.invoked == Invocations(tools, o, rounds)
    ensures c.asked == Attempts(o, rounds)
  {
    AfterIs(prompt, tools, o, rounds);
    if rounds < n { SentIs(prompt, tools, o, rounds, After(prompt, tools, o, rounds)); }
  }

  /** Against any model behaviour, the requests sent are the transcripts of the rounds so far, at most max
      of them, and the tools run are the allowed ones that were asked for. */
  lemma StoppedSends(n: nat, prompt: string, max: nat, tools: Tools, o: Oracle, e: Ended)
    requires StoppedAt(n, prompt, max, tools, o, e)
    ensures |e.c.sent| == n <= max && e.c.sent == Requests(prompt, tools, o, n)
    ensures n - 1 <= e.rounds <= n && e.c.invoked == Invocations(tools, o, e.rounds)
    ensures e.c.asked == Attempts(o, e.rounds)
  {
    StoppedShape(n, prompt, max, tools, o, e);
    ShapeSends(n, prompt, tools, o, e.c, e.rounds);
  }

  lemma SentIs(prompt: string, tools: Tools, o: Oracle, k: nat, c: Conversation)
    requires c.messages == Transcript(prompt, tools, o, k) && c.sent == Requests(prompt, tools, o, k)
    ensures Sent(c).sent == Requests(prompt, tools, o, k + 1)
  {
  }

  // ---- What the transcript guarantees ---------------------------------------------------

  predicate Alternates(msgs: seq<Message>) {
    forall i :: 0 <= i < |msgs| ==> msgs[i].role == if i % 2 == 0 then User else Assistant
  }

  /** The answer carries the id of its use. A tool that is not allowed is an error and is not run; an allowed
      one answers with the output of its own invocation, or with the error that made it fail. n uses had
      been run before this one. */
  predicate AnswersUse(b: Block, use: Use, tools: Tools, o: Oracle, n: nat) {
    b.ToolResult? && b.useId == use.id &&
    if use.name !in tools then b.result == NotAllowed(use.name) && b.isError
    else if o.invoke(n).Failed? then b.result == ToolError(o.invoke(n).why) && b.isError
    else b.result == ToolOutput(o.invoke(n).text) && !b.isError
  }

  /** results answer uses one for one, in order, by id; n uses had been run before the first. */
  ghost predicate Matches(uses: seq<Use>, results: seq<Block>, tools: Tools, o: Oracle, n: nat) {
    && |results| == |uses|
    && forall i :: 0 <= i < |uses| ==> MatchesAt(uses, results, tools, o, n, i)
  }

  predicate MatchesAt(uses: seq<Use>, results: seq<Block>, tools: Tools, o: Oracle, n: nat, i: nat)
    requires i < |uses| == |results|
  {
    AnswersUse(results[i], uses[i], tools, o, n + RunBefore(uses, i, tools))
  }

  /** How many of the first i uses are of allowed tools. */
  function RunBefore(uses: seq<Use>, i: nat, tools: Tools): nat
    requires i <= |uses|
  {
    if i == 0 then 0 else RunBefore(uses, i - 1, tools) + (if uses[i - 1].name in tools then 1 else 0)
  }

  lemma {:induction false} RunBeforePrefix(uses: seq<Use>, more: seq<Use>, i: nat, tools: Tools)
    requires i <= |uses|
    ensures RunBefore(uses + more, i, tools) == RunBefore(uses, i, tools)
  {
    if i > 0 { RunBeforePrefix(uses, more, i - 1, tools); }
  }

  lemma {:induction false} AllowedCount(uses: seq<Use>, tools: Tools)
    ensures |Allowed(uses, tools)| == RunBefore(uses, |uses|, tools)
  {
    if uses != [] {
      var rest := uses[..|uses| - 1];
      AllowedCount(rest, tools);
      RunBeforePrefix(rest, [uses[|uses| - 1]], |rest|, tools);
      assert rest + [uses[|uses| - 1]] == uses;
    }
  }

  /** Assistant turn j is the model's reply verbatim and the next user turn answers its tool uses. */
  ghost predicate RoundOk(msgs: seq<Message>, tools: Tools, o: Oracle, j: nat) {
    && 2 * j + 2 < |msgs|
    && msgs[2 * j + 1].content == ReplyOf(o.response(j))
    && Matches(RoundUses(o.response(j)), msgs[2 * j + 2].content, tools, o, |Invocations(tools, o, j)|)
  }

  lemma {:induction false} AnswersMatch(uses: seq<Use>, tools: Tools, o: Oracle, n: nat)
    ensures Matches(uses, Answers(uses, tools, o, n), tools, o, n)
  {
    if uses != [] {
      var rest, last := uses[..|uses| - 1], uses[|uses| - 1];
      AnswersMatch(rest, tools, o, n);
      AllowedCount(rest, tools);
      assert uses == rest + [last];
      forall i | 0 <= i < |uses| ensures MatchesAt(uses, Answers(uses, tools, o, n), tools, o, n, i) {
        RunBeforePrefix(rest, [last], if i < |rest| then i else |rest|, tools);
        assert i < |rest| ==> MatchesAt(rest, Answers(rest, tools, o, n), tools, o, n, i);
      }
    }
  }

  lemma {:induction false} AllowedOnly(uses: seq<Use>, tools: Tools)
    ensures forall u :: u in Allowed(uses, tools) <==> u in uses && u.name in tools
    ensures |Allowed(uses, tools)| <= |uses|
  {
    if uses != [] {
      AllowedOnly(uses[..|uses| - 1], tools);
      assert uses == uses[..|uses| - 1] + [uses[|uses| - 1]];
    }
  }

  /** The uses of a reply are its tool-use blocks, in order: splitting it anywhere splits them. */
  lemma {:induction false} UsesOfReply(a: seq<Block>, b: seq<Block>)
    ensures Uses(a + b) == Uses(a) + Uses(b) && TextOf(a + b) == TextOf(a) + TextOf(b)
    ensures |a| == 1 ==> Uses(a) == if a[0].ToolUse? then [Use(a[0].id, a[0].name, a[0].input)] else []
    ensures |a| == 1 ==> TextOf(a) == if a[0].Text? then a[0].text else ""
  {
    assert |a| == 1 ==> a[..0] == [];
    if b == [] {
      assert a + b == a;
    } else {
      UsesOfReply(a, b[..|b| - 1]);
      assert (a + b)[..|a + b| - 1] == a + b[..|b| - 1];
    }
  }

  lemma {:induction false} TranscriptAlternates(prompt: string, tools: Tools, o: Oracle, k: nat)
    ensures var msgs := Transcript(prompt, tools, o, k);
            Alternates(msgs) && msgs[0] == Message(User, [Text(prompt)])
  {
    if k > 0 {
      TranscriptAlternates(prompt, tools, o, k - 1);
      AlternatesOn(Transcript(prompt, tools, o, k - 1), RoundTurns(tools, o, k - 1));
    }
  }

  lemma AlternatesOn(msgs: seq<Message>, more: seq<Message>)
    requires Alternates(msgs) && |msgs| % 2 == 1
    requires |more| == 2 && more[0].role == Assistant && more[1].role == User
    ensures Alternates(msgs + more)
  {
    forall i | 0 <= i < |msgs + more| ensures (msgs + more)[i].role == if i % 2 == 0 then User else Assistant {
      assert i < |msgs| ==> (msgs + more)[i] == msgs[i];
    }
  }

  lemma {:induction false} TranscriptRound(prompt: string, tools: Tools, o: Oracle, k: nat, j: nat)
    requires j < k
    ensures RoundOk(Transcript(prompt, tools, o, k), tools, o, j)
  {
    if j < k - 1 {
      TranscriptRound(prompt, tools, o, k - 1, j);
    } else {
      AnswersMatch(RoundUses(o.response(j)), tools, o, |Invocations(tools, o, j)|);
    }
  }

  /** Only tools of the registry handed to the driver are ever invoked. */
  lemma {:induction false} OnlyAllowedTools(tools: Tools, o: Oracle, k: nat)
    ensures forall u :: u in Invocations(tools, o, k) ==> u.name in tools
    ensures |Invocations(tools, o, k)| <= Attempts(o, k)
  {
    if k > 0 {
      OnlyAllowedTools(tools, o, k - 1);
      AllowedOnly(RoundUses(o.response(k - 1)), tools);
    }
  }

  /** Request k carries 2k+1 messages, strictly alternating from the user's prompt; every assistant turn
      in it is answered one for one and in order; and it extends request k-1. */
  lemma RequestWellFormed(prompt: string, tools: Tools, o: Oracle, n: nat, k: nat)
    requires k < n
    ensures var sent := Requests(prompt, tools, o, n);
            && |sent| == n && |sent[k]| == 2 * k + 1
            && Alternates(sent[k]) && sent[k][0] == Message(User, [Text(prompt)])
            && (k > 0 ==> sent[k - 1] <= sent[k])
    ensures forall j :: 0 <= j < k ==> RoundOk(Requests(prompt, tools, o, n)[k], tools, o, j)
  {
    RequestAt(prompt, tools, o, n, k);
    if k > 0 { RequestAt(prompt, tools, o, n, k - 1); }
    TranscriptAlternates(prompt, tools, o, k);
    forall j | 0 <= j < k ensures RoundOk(Transcript(prompt, tools, o, k), tools, o, j) {
      TranscriptRound(prompt, tools, o, k, j);
    }
  }

  /** A clean finish reports the number of rounds; that is the number of tool uses exactly when every
      round asked for one tool. */
  lemma {:induction false} CleanCountIsRounds(o: Oracle, k: nat)
    requires Continues(o, k)
    ensures k <= Attempts(o, k)
    ensures k == Attempts(o, k) <==> forall j :: 0 <= j < k ==> |RoundUses(o.response(j))| == 1
  {
    if k > 0 {
      CleanCountIsRounds(o, k - 1);
      assert AsksForMore(o.response(k - 1));
      assert |RoundUses(o.response(k - 1))| >= 1;
      assert Attempts(o, k) == Attempts(o, k - 1) + |RoundUses(o.response(k - 1))|;
    }
  }
}
