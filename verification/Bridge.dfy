/** The stdio-to-HTTP bridge: clients/mcp-bridge/index.js:46-231. JavaScript runs one callback at a
    time, so the bridge is a machine whose steps are those callbacks. */
module Bridge {
  import opened Common

  /** A JSON id; null and absent-after-?? read the same. */
  datatype Id = NullId | Id(text: string)

  /** A parsed input line: a bare string, number, boolean or null; a batch array; or an object,
      with or without an id member. */
  datatype Req = Primitive(text: string) | Batch(text: string) | Object(text: string, id: Option<Id>)

  datatype Body = Malformed | NullBody | JsonBody(text: string)

  /** How the POST ends: without response headers, without the body being read, or with one. */
  datatype Outcome = Rejected(aborted: bool) | Unread | Responded(status: int, body: Body)

  datatype Frame = ErrorFrame(id: Id, code: int) | Verbatim(text: string)

  /** `'id' in req` is false: notifications, but batch arrays too, whatever ids their members have. */
  predicate NoIdMember(r: Req) { r.Batch? || (r.Object? && r.id.None?) }

  function IdOf(r: Req): Id { if r.Object? && r.id.Some? then r.id.value else NullId }

  /** `in` throws on a primitive, before any request is made. */
  predicate Posts(r: Req, hasFetch: bool) { hasFetch && !r.Primitive? }

  /** The frame written for a request, None for silence. */
  function Reply(r: Req, hasFetch: bool, o: Outcome): Option<Frame> {
    if !hasFetch then Some(ErrorFrame(IdOf(r), -32603))
    else if r.Primitive? then Some(ErrorFrame(NullId, -32603))
    else if NoIdMember(r) then None
    else match o
      case Rejected(_) => Some(ErrorFrame(IdOf(r), -32603))
      case Unread => Some(ErrorFrame(IdOf(r), -32603))
      case Responded(status, body) =>
        if !(200 <= status < 300) then Some(ErrorFrame(IdOf(r), if status == 401 then -32001 else -32603))
        else match body
          case Malformed => Some(ErrorFrame(IdOf(r), -32603))
          case NullBody => None
          case JsonBody(text) => Some(Verbatim(text))
  }

  /** With fetch available, a request is left unanswered exactly when it is a notification or a batch, or
      the daemon's successful body is the literal null. */
  lemma Unanswered(r: Req, o: Outcome)
    ensures Reply(r, true, o).None? <==>
              NoIdMember(r) || (r.Object? && o.Responded? && 200 <= o.status < 300 && o.body.NullBody?)
  {
  }

  // ---- The machine -------------------------------------------------------------

  datatype Line = Blank | Garbage | Parsed(r: Req)

  /** stdout: parse errors at once, replies labelled with the number of the request they answer. */
  datatype Out = ParseError | ReplyTo(k: nat, f: Frame)

  /** Headers: fetch resolves and the timer is cleared. Settle: the POST ends with this outcome. */
  datatype Event = Input(line: Line) | Pump | Headers | Settle(o: Outcome) | EndOfInput | Resolve

  const TIMEOUT := Settle(Rejected(true))

  /** parsed: all requests read so far; done of them are finished, with these outcomes; if busy, the next
      has been posted, and reading tells whether its response is being read; the rest wait in the chain. */
  datatype State = State(parsed: seq<Req>, done: nat, busy: bool, reading: bool, outcomes: seq<Outcome>,
                         posts: seq<Req>, stdout: seq<Out>, closed: bool, resolved: bool)

  const INIT := State([], 0, false, false, [], [], [], false, false)

  function Say(k: nat, f: Option<Frame>): seq<Out> { if f.Some? then [ReplyTo(k, f.value)] else [] }

  function Complete(s: State, hasFetch: bool, o: Outcome): State
    requires s.done < |s.parsed|
  {
    s.(done := s.done + 1, busy := false, reading := false, outcomes := s.outcomes + [o],
       stdout := s.stdout + Say(s.done, Reply(s.parsed[s.done], hasFetch, o)))
  }

  function React(s: State, e: Event, hasFetch: bool): State {
    match e
    case Input(line) =>
      if s.closed then s
      else (match line
            case Blank => s
            case Garbage => s.(stdout := s.stdout + [ParseError])
            case Parsed(r) => s.(parsed := s.parsed + [r]))
    case Pump =>
      if s.busy || s.done >= |s.parsed| then s
      else
        var r := s.parsed[s.done];
        if Posts(r, hasFetch) then s.(busy := true, posts := s.posts + [r])
        else Complete(s, hasFetch, Rejected(false))
    case Headers =>
      if !s.busy || s.reading || s.done >= |s.parsed| then s
      else if NoIdMember(s.parsed[s.done]) then Complete(s, hasFetch, Unread)
      else s.(reading := true)
    case Settle(o) =>
      if s.busy && s.done < |s.parsed| && (o.Rejected? <==> !s.reading) then Complete(s, hasFetch, o) else s
    case EndOfInput => s.(closed := true)
    case Resolve => if s.closed && !s.busy && s.done == |s.parsed| then s.(resolved := true) else s
  }

  function RunFrom(s: State, events: seq<Event>, hasFetch: bool): State {
    if events == [] then s else React(RunFrom(s, events[..|events| - 1], hasFetch), events[|events| - 1], hasFetch)
  }

  function Run(events: seq<Event>, hasFetch: bool): State { RunFrom(INIT, events, hasFetch) }

  /** The callbacks as the source has them. */
  class BridgeLoop {
    const hasFetch: bool
    var chain: seq<Req>            // links not yet started
    var inFlight: Option<Req>
    var reading: bool              // its response headers have arrived
    var handled: nat
    var posts: seq<Req>
    var stdout: seq<Out>
    var closed: bool
    var resolved: bool
    ghost var s: State

    ghost predicate Valid()
      reads this
    {
      && handled == s.done <= |s.parsed|
      && posts == s.posts && stdout == s.stdout && closed == s.closed && resolved == s.resolved
      && (inFlight.Some? <==> s.busy) && reading == s.reading
      && s.parsed[s.done..] == (if inFlight.Some? then [inFlight.value] else []) + chain
    }

    constructor (hasFetch: bool)
      ensures Valid() && s == INIT && this.hasFetch == hasFetch
    {
      this.hasFetch := hasFetch;
      chain, inFlight, handled, posts, stdout := [], None, 0, [], [];
      reading, closed, resolved, s := false, false, false, INIT;
    }

    method OnLine(line: Line)
      requires Valid()
      modifies this
      ensures Valid() && s == React(old(s), Input(line), hasFetch)
    {
      s := React(s, Input(line), hasFetch);
      if closed || line.Blank? {
        return;
      }
      if line.Garbage? {
        stdout := stdout + [ParseError];
        return;
      }
      chain := chain + [line.r];
    }

    /** The next link of the chain starts. */
    method StartNext()
      requires Valid()
      modifies this
      ensures Valid() && s == React(old(s), Pump, hasFetch)
    {
      ghost var s0 := s;
      s := React(s, Pump, hasFetch);
      if inFlight.Some? || |chain| == 0 {
        return;
      }
      var r := chain[0];
      assert s0.parsed[s0.done] == s0.parsed[s0.done..][0] == r;
      assert s0.parsed[s0.done + 1..] == s0.parsed[s0.done..][1..];
      chain := chain[1..];
      if hasFetch && !r.Primitive? {
        posts := posts + [r];
        inFlight := Some(r);
      } else {
        Finish(r, Rejected(false));
      }
    }

    method Finish(r: Req, o: Outcome)
      modifies this`stdout, this`handled, this`inFlight, this`reading
      ensures stdout == old(stdout) + Say(old(handled), Reply(r, hasFetch, o))
      ensures handled == old(handled) + 1 && inFlight == None && !reading
    {
      var resp := Reply(r, hasFetch, o);
      if resp != None {
        stdout := stdout + [ReplyTo(handled, resp.value)];
      }
      handled := handled + 1;
      inFlight, reading := None, false;
    }

    /** fetch resolves: the timer is cleared, and the body is awaited unless nobody waits for an answer. */
    method OnHeaders()
      requires Valid()
      modifies this
      ensures Valid() && s == React(old(s), Headers, hasFetch)
    {
      ghost var s0 := s;
      s := React(s, Headers, hasFetch);
      if inFlight.None? || reading {
        return;
      }
      assert s0.parsed[s0.done] == s0.parsed[s0.done..][0];
      assert s0.parsed[s0.done + 1..] == s0.parsed[s0.done..][1..];
      if NoIdMember(inFlight.value) {
        Finish(inFlight.value, Unread);
      } else {
        reading := true;
      }
    }

    method OnFetchSettled(o: Outcome)
      requires Valid()
      modifies this
      ensures Valid() && s == React(old(s), Settle(o), hasFetch)
    {
      ghost var s0 := s;
      s := React(s, Settle(o), hasFetch);
      if inFlight.None? || o.Rejected? == reading {
        return;
      }
      assert s0.parsed[s0.done] == s0.parsed[s0.done..][0];
      assert s0.parsed[s0.done + 1..] == s0.parsed[s0.done..][1..];
      Finish(inFlight.value, o);
    }

    method OnClose()
      requires Valid()
      modifies this
      ensures Valid() && s == React(old(s), EndOfInput, hasFetch)
    {
      s := React(s, EndOfInput, hasFetch);
      closed := true;
    }

    method OnDrained()
      requires Valid()
      modifies this
      ensures Valid() && s == React(old(s), Resolve, hasFetch)
    {
      assert s.done == |s.parsed| <==> s.parsed[s.done..] == [];
      s := React(s, Resolve, hasFetch);
      if closed && inFlight.None? && |chain| == 0 {
        resolved := true;
      }
    }
  }

  // ---- What every run guarantees ------------------------------------------------------

  /** The requests among the input lines that arrive before end of input. */
  function Requests(events: seq<Event>): seq<Req> {
    if events == [] then []
    else
      var rest, e := events[..|events| - 1], events[|events| - 1];
      Requests(rest) + (if e.Input? && e.line.Parsed? && EndOfInput !in rest then [e.line.r] else [])
  }

  function GarbageLines(events: seq<Event>): nat {
    if events == [] then 0
    else
      var rest, e := events[..|events| - 1], events[|events| - 1];
      GarbageLines(rest) + (if e == Input(Garbage) && EndOfInput !in rest then 1 else 0)
  }

  /** The frames owed for the first n requests, in input order. */
  function Owed(parsed: seq<Req>, outcomes: seq<Outcome>, n: nat, hasFetch: bool): seq<Out>
    requires n <= |parsed| && n <= |outcomes|
  {
    if n == 0 then []
    else Owed(parsed, outcomes, n - 1, hasFetch) + Say(n - 1, Reply(parsed[n - 1], hasFetch, outcomes[n - 1]))
  }

  function Posted(parsed: seq<Req>, n: nat, hasFetch: bool): seq<Req>
    requires n <= |parsed|
  {
    if n == 0 then []
    else Posted(parsed, n - 1, hasFetch) + (if Posts(parsed[n - 1], hasFetch) then [parsed[n - 1]] else [])
  }

  function Replies(out: seq<Out>): seq<Out> {
    if out == [] then []
    else Replies(out[..|out| - 1]) + (if out[|out| - 1].ReplyTo? then [out[|out| - 1]] else [])
  }

  function ParseErrors(out: seq<Out>): nat {
    if out == [] then 0 else ParseErrors(out[..|out| - 1]) + (if out[|out| - 1].ParseError? then 1 else 0)
  }

  /** POSTs are a prefix, in order, of the requests that are to be posted, at most one of them still in
      flight; replies so far are exactly the frames owed for the finished requests, in order. */
  ghost predicate InOrder(s: State, hasFetch: bool) {
    && s.done == |s.outcomes| && s.done + (if s.busy then 1 else 0) <= |s.parsed|
    && (s.busy ==> Posts(s.parsed[s.done], hasFetch)) && (s.reading ==> s.busy)
    && s.posts == Posted(s.parsed, s.done + (if s.busy then 1 else 0), hasFetch)
    && Replies(s.stdout) == Owed(s.parsed, s.outcomes, s.done, hasFetch)
    && (s.resolved ==> s.closed && s.done == |s.parsed|)
  }

  lemma {:induction false} OwedStable(p: seq<Req>, q: seq<Req>, a: seq<Outcome>, b: seq<Outcome>, n: nat,
                                      hasFetch: bool)
    requires n <= |p| && n <= |a|
    ensures Owed(p + q, a + b, n, hasFetch) == Owed(p, a, n, hasFetch)
    ensures Posted(p + q, n, hasFetch) == Posted(p, n, hasFetch)
  {
    if n > 0 {
      OwedStable(p, q, a, b, n - 1, hasFetch);
    }
  }

  lemma CompleteInOrder(s: State, o: Outcome, hasFetch: bool)
    requires InOrder(s, hasFetch) && s.done < |s.parsed| && (s.busy || !Posts(s.parsed[s.done], hasFetch))
    requires !s.resolved
    ensures InOrder(Complete(s, hasFetch, o), hasFetch)
  {
    var t := Complete(s, hasFetch, o);
    OwedStable(s.parsed, [], s.outcomes, [o], s.done, hasFetch);
    assert s.parsed + [] == s.parsed;
    assert t.outcomes == s.outcomes + [o];
    RepliesSay(s.stdout, s.done, Reply(s.parsed[s.done], hasFetch, o));
  }

  lemma RepliesSay(out: seq<Out>, k: nat, f: Option<Frame>)
    ensures Replies(out + Say(k, f)) == Replies(out) + Say(k, f)
  {
    assert f.Some? ==> (out + Say(k, f))[..|out|] == out;
    assert f.None? ==> out + Say(k, f) == out;
  }

  lemma StepInOrder(s: State, e: Event, hasFetch: bool)
    requires InOrder(s, hasFetch)
    ensures InOrder(React(s, e, hasFetch), hasFetch)
  {
    match e
    case Input(Parsed(r)) =>
      OwedStable(s.parsed, [r], s.outcomes, [], s.done, hasFetch);
      assert s.outcomes + [] == s.outcomes;
      if s.busy { OwedPostedNext(s, r, hasFetch); }
    case Input(Garbage) =>
      assert (s.stdout + [ParseError])[..|s.stdout|] == s.stdout;
    case Input(Blank) =>
    case Pump =>
      if !s.busy && s.done < |s.parsed| && !Posts(s.parsed[s.done], hasFetch) {
        CompleteInOrder(s, Rejected(false), hasFetch);
      }
    case Headers =>
      if s.busy && !s.reading && NoIdMember(s.parsed[s.done]) { CompleteInOrder(s, Unread, hasFetch); }
    case Settle(o) =>
      if s.busy && (o.Rejected? <==> !s.reading) { CompleteInOrder(s, o, hasFetch); }
    case EndOfInput =>
    case Resolve =>
  }

  lemma OwedPostedNext(s: State, r: Req, hasFetch: bool)
    requires InOrder(s, hasFetch) && s.busy
    ensures Posted(s.parsed + [r], s.done + 1, hasFetch) == Posted(s.parsed, s.done + 1, hasFetch)
  {
    OwedStable(s.parsed, [r], s.outcomes, [], s.done, hasFetch);
  }

  /** What one callback adds to what was read and to the parse errors written. */
  lemma StepReads(s: State, e: Event, hasFetch: bool)
    ensures var t := React(s, e, hasFetch);
            && t.parsed == s.parsed + (if e.Input? && e.line.Parsed? && !s.closed then [e.line.r] else [])
            && (t.closed <==> s.closed || e.EndOfInput?)
            && ParseErrors(t.stdout) == ParseErrors(s.stdout) + (if e == Input(Garbage) && !s.closed then 1 else 0)
  {
    match e
    case Input(Garbage) =>
      assert (s.stdout + [ParseError])[..|s.stdout|] == s.stdout;
    case Pump => CompleteReads(s, Rejected(false), hasFetch);
    case Headers => CompleteReads(s, Unread, hasFetch);
    case Settle(o) => CompleteReads(s, o, hasFetch);
    case _ =>
  }

  lemma CompleteReads(s: State, o: Outcome, hasFetch: bool)
    ensures s.done < |s.parsed| ==>
              var t := Complete(s, hasFetch, o);
              t.parsed == s.parsed && t.closed == s.closed && ParseErrors(t.stdout) == ParseErrors(s.stdout)
  {
    if s.done < |s.parsed| { SayIsNoParseError(s.stdout, s.done, Reply(s.parsed[s.done], hasFetch, o)); }
  }

  lemma SayIsNoParseError(out: seq<Out>, k: nat, f: Option<Frame>)
    ensures ParseErrors(out + Say(k, f)) == ParseErrors(out)
  {
    assert f.Some? ==> (out + Say(k, f))[..|out|] == out;
    assert f.None? ==> out + Say(k, f) == out;
  }

  /** What was read: every request line before end of input, in order. */
  lemma {:induction false} ReadsEverything(events: seq<Event>, hasFetch: bool)
    ensures Run(events, hasFetch).parsed == Requests(events)
    ensures Run(events, hasFetch).closed <==> EndOfInput in events
    ensures ParseErrors(Run(events, hasFetch).stdout) == GarbageLines(events)
  {
    if events != [] {
      var rest, e := events[..|events| - 1], events[|events| - 1];
      ReadsEverything(rest, hasFetch);
      StepReads(Run(rest, hasFetch), e, hasFetch);
      assert events == rest + [e];
    }
  }

  lemma {:induction false} AlwaysInOrder(events: seq<Event>, hasFetch: bool)
    ensures InOrder(Run(events, hasFetch), hasFetch)
  {
    if events != [] {
      AlwaysInOrder(events[..|events| - 1], hasFetch);
      StepInOrder(Run(events[..|events| - 1], hasFetch), events[|events| - 1], hasFetch);
    }
  }

  lemma {:induction false} PostedAre(parsed: seq<Req>, n: nat, hasFetch: bool)
    requires n <= |parsed|
    ensures Posted(parsed, n, hasFetch) == if hasFetch then Filter(parsed[..n], (r: Req) => !r.Primitive?) else []
  {
    if n > 0 {
      PostedAre(parsed, n - 1, hasFetch);
      FilterConcat(parsed[..n - 1], [parsed[n - 1]], (r: Req) => !r.Primitive?);
      assert parsed[..n] == parsed[..n - 1] + [parsed[n - 1]];
      assert [parsed[n - 1]][1..] == [];
    }
  }

  /** For every input and completion timing: requests other than bare values are posted one at a time in input
      order; each finished request has written its one owed frame, in input order, and nothing else; each
      unparsable line wrote exactly one error frame; and once the bridge resolves, every request read is
      answered. */
  lemma BridgeDelivers(events: seq<Event>, hasFetch: bool)
    ensures var s := Run(events, hasFetch);
            var reqs := Requests(events);
            && s.done <= |reqs| && |s.outcomes| == s.done && s.done + (if s.busy then 1 else 0) <= |reqs|
            && s.posts == (if hasFetch then Filter(reqs[..s.done + (if s.busy then 1 else 0)],
                                                   (r: Req) => !r.Primitive?) else [])
            && Replies(s.stdout) == Owed(reqs, s.outcomes, s.done, hasFetch)
            && ParseErrors(s.stdout) == GarbageLines(events)
            && (s.resolved ==> s.done == |reqs| && !s.busy)
  {
    AlwaysInOrder(events, hasFetch);
    ReadsEverything(events, hasFetch);
    var s := Run(events, hasFetch);
    PostedAre(s.parsed, s.done + (if s.busy then 1 else 0), hasFetch);
  }

  /** Replies only, with increasing numbers below n. */
  ghost predicate Numbered(out: seq<Out>, n: nat) {
    && (forall i :: 0 <= i < |out| ==> out[i].ReplyTo? && out[i].k < n)
    && (forall i, j :: 0 <= i < j < |out| ==> out[i].k < out[j].k)
  }

  lemma SayNumbered(out: seq<Out>, n: nat, f: Option<Frame>)
    requires Numbered(out, n)
    ensures Numbered(out + Say(n, f), n + 1)
  {
    var all := out + Say(n, f);
    forall i | 0 <= i < |all| ensures all[i].ReplyTo? && all[i].k < n + 1 {
      assert i < |out| ==> all[i] == out[i];
    }
    forall i, j | 0 <= i < j < |all| ensures all[i].k < all[j].k {
      assert all[i] == out[i];
      assert j < |out| ==> all[j] == out[j];
    }
  }

  lemma {:induction false} OwedNumbered(parsed: seq<Req>, outcomes: seq<Outcome>, n: nat, hasFetch: bool)
    requires n <= |parsed| && n <= |outcomes|
    ensures Numbered(Owed(parsed, outcomes, n, hasFetch), n)
  {
    if n > 0 {
      OwedNumbered(parsed, outcomes, n - 1, hasFetch);
      SayNumbered(Owed(parsed, outcomes, n - 1, hasFetch), n - 1, Reply(parsed[n - 1], hasFetch, outcomes[n - 1]));
    }
  }

  lemma {:induction false} OwedFrame(parsed: seq<Req>, outcomes: seq<Outcome>, n: nat, hasFetch: bool, k: nat, f: Frame)
    requires n <= |parsed| && n <= |outcomes| && k < n
    ensures ReplyTo(k, f) in Owed(parsed, outcomes, n, hasFetch) <==> Reply(parsed[k], hasFetch, outcomes[k]) == Some(f)
  {
    var rest := Owed(parsed, outcomes, n - 1, hasFetch);
    var last := Say(n - 1, Reply(parsed[n - 1], hasFetch, outcomes[n - 1]));
    assert ReplyTo(k, f) in rest + last <==> ReplyTo(k, f) in rest || ReplyTo(k, f) in last;
    if k < n - 1 {
      OwedFrame(parsed, outcomes, n - 1, hasFetch, k, f);
    } else {
      OwedNumbered(parsed, outcomes, n - 1, hasFetch);
      assert forall x :: x in rest ==> x.ReplyTo? && x.k < n - 1;
    }
  }

  /** Frames owed carry the numbers of answered requests, each once and increasing: request k is answered
      in the stream exactly when its reply is a frame, and with that frame. */
  lemma {:induction false} OwedOncePerRequest(parsed: seq<Req>, outcomes: seq<Outcome>, n: nat, hasFetch: bool)
    requires n <= |parsed| && n <= |outcomes|
    ensures var owed := Owed(parsed, outcomes, n, hasFetch);
            && Numbered(owed, n)
            && (forall k: nat, f :: k < n ==>
                  (ReplyTo(k, f) in owed <==> Reply(parsed[k], hasFetch, outcomes[k]) == Some(f)))
  {
    OwedNumbered(parsed, outcomes, n, hasFetch);
    forall k: nat, f | k < n
      ensures ReplyTo(k, f) in Owed(parsed, outcomes, n, hasFetch) <==>
                Reply(parsed[k], hasFetch, outcomes[k]) == Some(f)
    {
      OwedFrame(parsed, outcomes, n, hasFetch, k, f);
    }
  }

  // ---- What each request is answered ----------------------------------------------------

  predicate HasId(r: Req) { r.Object? && r.id.Some? }

  /** The daemon answered this request, which has an id member, with this JSON text and a status in [200, 300). */
  predicate Answered(r: Req, hasFetch: bool, o: Outcome, text: string) {
    hasFetch && HasId(r) && o.Responded? && 200 <= o.status <= 299 && o.body == JsonBody(text)
  }

  /** The bridge owes an error: nothing could be posted, or a request with an id member ended otherwise than
      with a successful body of JSON. */
  predicate Fails(r: Req, hasFetch: bool, o: Outcome) {
    || !hasFetch || r.Primitive?
    || (HasId(r) && !(o.Responded? && 200 <= o.status <= 299 && !o.body.Malformed?))
  }

  /** 401 from the daemon is "unauthorized", everything else an internal error; the id is the request's own. */
  predicate ErrorFor(r: Req, hasFetch: bool, o: Outcome, id: Id, code: int) {
    && id == (if HasId(r) then r.id.value else NullId)
    && code == (if hasFetch && HasId(r) && o.Responded? && o.status == 401 then -32001 else -32603)
  }

  lemma ReplyIs(r: Req, hasFetch: bool, o: Outcome)
    ensures forall text :: Reply(r, hasFetch, o) == Some(Verbatim(text)) <==> Answered(r, hasFetch, o, text)
    ensures forall id, code :: Reply(r, hasFetch, o) == Some(ErrorFrame(id, code)) <==>
                               Fails(r, hasFetch, o) && ErrorFor(r, hasFetch, o, id, code)
  {
  }

  lemma {:induction false} InReplies(out: seq<Out>, k: nat, f: Frame)
    ensures ReplyTo(k, f) in out <==> ReplyTo(k, f) in Replies(out)
  {
    if out != [] {
      InReplies(out[..|out| - 1], k, f);
      assert out == out[..|out| - 1] + [out[|out| - 1]];
    }
  }

  lemma FrameOut(s: State, hasFetch: bool, k: nat, f: Frame)
    requires InOrder(s, hasFetch)
    ensures ReplyTo(k, f) in s.stdout <==> k < s.done && Reply(s.parsed[k], hasFetch, s.outcomes[k]) == Some(f)
  {
    InReplies(s.stdout, k, f);
    if k < s.done {
      OwedFrame(s.parsed, s.outcomes, s.done, hasFetch, k, f);
    } else {
      OwedNumbered(s.parsed, s.outcomes, s.done, hasFetch);
    }
  }

  /** In every run: the daemon's own text is written for request k if and only if that request is finished, has
      an id member and was answered with it and a status in [200, 300); an error is written if and only if the
      request is finished and failed, with the request's own id and -32001 for status 401, -32603 otherwise. */
  lemma AnswersAre(events: seq<Event>, hasFetch: bool, k: nat)
    ensures var s := Run(events, hasFetch);
            && s.done <= |s.parsed| && s.done == |s.outcomes|
            && (forall text :: ReplyTo(k, Verbatim(text)) in s.stdout <==>
                  k < s.done && Answered(s.parsed[k], hasFetch, s.outcomes[k], text))
            && (forall id, code :: ReplyTo(k, ErrorFrame(id, code)) in s.stdout <==>
                  && k < s.done && Fails(s.parsed[k], hasFetch, s.outcomes[k])
                  && ErrorFor(s.parsed[k], hasFetch, s.outcomes[k], id, code))
  {
    var s := Run(events, hasFetch);
    AlwaysInOrder(events, hasFetch);
    forall f ensures ReplyTo(k, f) in s.stdout <==>
                     k < s.done && Reply(s.parsed[k], hasFetch, s.outcomes[k]) == Some(f)
    {
      FrameOut(s, hasFetch, k, f);
    }
    if k < s.done { ReplyIs(s.parsed[k], hasFetch, s.outcomes[k]); }
  }

  /** The event that finished request k, when it was in flight, with this outcome. */
  ghost predicate FinishedBy(events: seq<Event>, hasFetch: bool, j: nat, k: nat, o: Outcome) {
    j < |events| &&
    var s := Run(events[..j], hasFetch);
    && s.busy && s.done == k
    && (if o.Unread? && events[j].Headers? then k < |s.parsed| && NoIdMember(s.parsed[k]) else events[j] == Settle(o))
  }

  ghost predicate Finished(events: seq<Event>, hasFetch: bool, k: nat, o: Outcome) {
    exists j: nat :: FinishedBy(events, hasFetch, j, k, o)
  }

  lemma FinishedLater(events: seq<Event>, e: Event, hasFetch: bool, k: nat, o: Outcome)
    ensures Finished(events, hasFetch, k, o) ==> Finished(events + [e], hasFetch, k, o)
  {
    if Finished(events, hasFetch, k, o) {
      var j: nat :| FinishedBy(events, hasFetch, j, k, o);
      assert (events + [e])[..j] == events[..j];
      assert FinishedBy(events + [e], hasFetch, j, k, o);
    }
  }

  /** Request k, if it is finished and was posted, ended with the outcome its POST settled with. */
  ghost predicate OutcomeOk(events: seq<Event>, hasFetch: bool, k: nat) {
    var s := Run(events, hasFetch);
    && InOrder(s, hasFetch)
    && (k < s.done && Posts(s.parsed[k], hasFetch) ==> Finished(events, hasFetch, k, s.outcomes[k]))
  }

  /** In every run: each finished request that was posted ended with the outcome its POST settled with while
      it was in flight, or with its headers when it has no id member. */
  lemma {:induction false} OutcomesAre(events: seq<Event>, hasFetch: bool, k: nat)
    ensures OutcomeOk(events, hasFetch, k)
  {
    if events != [] {
      var rest, e := events[..|events| - 1], events[|events| - 1];
      OutcomesAre(rest, hasFetch, k);
      OneMoreEvent(rest, e, hasFetch, k);
      assert events == rest + [e];
    }
  }

  lemma OneMoreEvent(rest: seq<Event>, e: Event, hasFetch: bool, k: nat)
    requires OutcomeOk(rest, hasFetch, k)
    ensures OutcomeOk(rest + [e], hasFetch, k)
  {
    var s := Run(rest, hasFetch);
    var t := React(s, e, hasFetch);
    assert (rest + [e])[..|rest|] == rest;
    StepFinishes(s, e, hasFetch);
    StepInOrder(s, e, hasFetch);
    if k < t.done && Posts(t.parsed[k], hasFetch) {
      FinishedLater(rest, e, hasFetch, k, t.outcomes[k]);
      assert k == s.done ==> FinishedBy(rest + [e], hasFetch, |rest|, k, t.outcomes[k]);
    }
  }

  /** A callback finishes at most one request, and a posted one only with what that callback brings. */
  lemma StepFinishes(s: State, e: Event, hasFetch: bool)
    requires InOrder(s, hasFetch)
    ensures var t := React(s, e, hasFetch);
            && s.outcomes <= t.outcomes && s.parsed <= t.parsed && s.done <= t.done <= s.done + 1
            && (t.done > s.done && Posts(s.parsed[s.done], hasFetch) ==>
                  && s.busy && |t.outcomes| == s.done + 1
                  && (e == Settle(t.outcomes[s.done])
                      || (e.Headers? && t.outcomes[s.done].Unread? && NoIdMember(s.parsed[s.done]))))
  {
  }

  // ---- The queue moves on ----------------------------------------------------------------

  lemma {:induction false} RunFromSplit(s: State, a: seq<Event>, b: seq<Event>, hasFetch: bool)
    ensures RunFrom(s, a + b, hasFetch) == RunFrom(RunFrom(s, a, hasFetch), b, hasFetch)
  {
    if b == [] {
      assert a + b == a;
    } else {
      RunFromSplit(s, a, b[..|b| - 1], hasFetch);
      assert (a + b)[..|a + b| - 1] == a + b[..|b| - 1];
    }
  }

  /** The callback that brings the first unfinished request further, when the daemon rejects every POST. */
  function Onward(s: State): Event
  {
    if s.reading then Settle(Responded(200, NullBody))
    else if s.busy then Settle(Rejected(false))
    else if s.done < |s.parsed| then Pump
    else if !s.closed then EndOfInput
    else Resolve
  }

  /** Callbacks left until the bridge resolves. */
  function ToGo(s: State): nat {
    if s.resolved || s.done > |s.parsed| then 0
    else 2 * (|s.parsed| - s.done) + (if s.busy then 0 else 1) + (if s.closed then 0 else 1)
  }

  lemma OnwardMoves(s: State, hasFetch: bool)
    requires InOrder(s, hasFetch) && !s.resolved
    ensures ToGo(React(s, Onward(s), hasFetch)) < ToGo(s)
    ensures !s.busy && s.done < |s.parsed| && Posts(s.parsed[s.done], hasFetch) ==>
              React(s, Pump, hasFetch).posts == s.posts + [s.parsed[s.done]] && React(s, Pump, hasFetch).busy
  {
  }

  /** From every point of every run the bridge can still post and finish everything it has read, and resolve. */
  lemma {:induction false} CanResolve(s: State, hasFetch: bool) returns (more: seq<Event>)
    requires InOrder(s, hasFetch)
    ensures RunFrom(s, more, hasFetch).resolved
    decreases ToGo(s)
  {
    if s.resolved {
      more := [];
    } else {
      var e := Onward(s);
      OnwardMoves(s, hasFetch);
      StepInOrder(s, e, hasFetch);
      var rest := CanResolve(React(s, e, hasFetch), hasFetch);
      assert RunFrom(s, [e], hasFetch) == React(s, e, hasFetch) by { assert [e][..0] == []; }
      RunFromSplit(s, [e], rest, hasFetch);
      more := [e] + rest;
    }
  }

  lemma AlwaysCanResolve(events: seq<Event>, hasFetch: bool)
    ensures exists more :: Run(events + more, hasFetch).resolved
  {
    AlwaysInOrder(events, hasFetch);
    var more := CanResolve(Run(events, hasFetch), hasFetch);
    RunFromSplit(INIT, events, more, hasFetch);
    assert Run(events + more, hasFetch).resolved;
  }

  // ---- When a posted request must settle ---------------------------------------------------

  /** Nothing comes from the daemon or the network: lines, the loop's own callbacks, and the timer. */
  predicate Local(e: Event) { !e.Headers? && (e.Settle? ==> e == TIMEOUT) }

  ghost predicate AllLocal(events: seq<Event>) { forall e :: e in events ==> Local(e) }

  lemma StepStalled(s: State, e: Event, hasFetch: bool)
    requires s.busy && s.reading && s.done < |s.parsed| && Local(e)
    ensures var t := React(s, e, hasFetch);
            t.busy && t.reading && t.done == s.done < |t.parsed| && t.posts == s.posts && t.resolved == s.resolved
    ensures Replies(React(s, e, hasFetch).stdout) == Replies(s.stdout)
  {
    assert (s.stdout + [ParseError])[..|s.stdout|] == s.stdout;
  }

  /** Once the headers are there the timer is gone: while the body does not come nothing is posted, answered
      or resolved, whatever lines arrive. */
  lemma {:induction false} StalledBody(s: State, more: seq<Event>, hasFetch: bool)
    requires s.busy && s.reading && s.done < |s.parsed| && AllLocal(more)
    ensures var t := RunFrom(s, more, hasFetch);
            && t.busy && t.reading && t.done == s.done < |t.parsed| && t.posts == s.posts
            && t.resolved == s.resolved && Replies(t.stdout) == Replies(s.stdout)
  {
    if more != [] {
      var rest, e := more[..|more| - 1], more[|more| - 1];
      assert forall x :: x in rest ==> x in more;
      StalledBody(s, rest, hasFetch);
      StepStalled(RunFrom(s, rest, hasFetch), e, hasFetch);
    }
  }

  /** In every run: a posted request can settle by the timer alone, without the daemon doing anything, if and
      only if its response headers have not arrived. */
  lemma SettlesAloneIff(events: seq<Event>, hasFetch: bool)
    requires Run(events, hasFetch).busy
    ensures var s := Run(events, hasFetch);
            (exists more :: AllLocal(more) && RunFrom(s, more, hasFetch).done > s.done) <==> !s.reading
  {
    var s := Run(events, hasFetch);
    AlwaysInOrder(events, hasFetch);
    if s.reading {
      forall more | AllLocal(more) ensures RunFrom(s, more, hasFetch).done == s.done { StalledBody(s, more, hasFetch); }
    } else {
      var more := [TIMEOUT];
      assert more[..0] == [] && RunFrom(s, more, hasFetch) == React(s, TIMEOUT, hasFetch);
      assert AllLocal(more) && RunFrom(s, more, hasFetch).done > s.done;
    }
  }
}
